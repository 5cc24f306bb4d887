/**
  The process-wide Shiprocket credential: a bearer token and its expiry
  instant, reused while fresh, refreshed by logging in again otherwise, and
  cleared when the upstream rejects it. The clock and the outcome of the login
  exchange are parameters.
 */
module Credentials {
  import opened Wrappers
  import opened JsSemantics

  /** A fresh login is trusted for nine days, in milliseconds. */
  const TOKEN_LIFETIME_MS: int := 9 * 24 * 60 * 60 * 1000

  const AUTH_FAILED_MESSAGE := "Failed to authenticate with Shiprocket"

  /** What the login endpoint did: it failed (the request threw, or the reply
      had no `data`), or it answered with a body whose `token` may be absent. */
  datatype LoginOutcome = LoginRejected | LoginAnswered(token: Option<string>)

  /** What one call of the credential manager produced. */
  datatype Acquired =
    | Reused(cached: string)             // the cached token, no login
    | LoggedIn(issued: Option<string>)   // whatever the login reply carried
    | AuthFailed                         // the login threw; nothing changed

  /** The token an acquisition hands to its caller (`undefined` when the login
      reply had none); nothing after a failure. */
  function TokenOf(a: Acquired): Option<string> {
    match a
    case Reused(t) => Some(t)
    case LoggedIn(t) => t
    case AuthFailed => None
  }

  /** `tokenExpiry > now` where a `null` expiry compares as 0. */
  function ExpiryAsNumber(e: Option<int>): int {
    match e
    case None => 0
    case Some(t) => t
  }

  class TokenCache {
    var token: Option<string>
    var expiry: Option<int>

    /** Process start: no token, no expiry. */
    constructor ()
      ensures token == None && expiry == None
    {
      token := None;
      expiry := None;
    }

    /** The cached token may be handed out at `now` without a login. */
    predicate Reusable(now: int)
      reads this
    {
      TruthyText(token) && ExpiryAsNumber(expiry) > now
    }

    /** Reusability only wears off as time passes; a falsy token is never
        reusable; a recorded expiry is a strict deadline, and a missing one
        (`null > now`) admits only instants before the epoch. */
    lemma ReusableUntilExpiry(t1: int, t2: int)
      ensures t1 <= t2 && Reusable(t2) ==> Reusable(t1)
      ensures !TruthyText(token) ==> !Reusable(t1)
      ensures expiry.Some? ==> (Reusable(t1) <==> TruthyText(token) && t1 < expiry.value)
      ensures expiry == None ==> (Reusable(t1) <==> TruthyText(token) && t1 < 0)
    {
    }

    /** `getShiprocketToken`. */
    method Acquire(now: int, login: LoginOutcome) returns (r: Acquired)
      modifies this
      ensures r.Reused? <==> old(Reusable(now))
      ensures r.Reused? ==> Some(r.cached) == old(token)
      ensures r.Reused? || r.AuthFailed? ==> token == old(token) && expiry == old(expiry)
      ensures !old(Reusable(now)) ==>
        (login.LoginRejected? <==> r.AuthFailed?)
      ensures !old(Reusable(now)) && login.LoginAnswered? ==>
        r == LoggedIn(login.token) && token == login.token && expiry == Some(now + TOKEN_LIFETIME_MS)
      ensures r.LoggedIn? && TruthyText(r.issued) ==>
        (forall t :: now <= t < now + TOKEN_LIFETIME_MS ==> Reusable(t)) && !Reusable(now + TOKEN_LIFETIME_MS)
    {
      if Reusable(now) {
        return Reused(token.value);
      }
      match login
      case LoginRejected =>
        r := AuthFailed;
      case LoginAnswered(issued) =>
        token := issued;
        expiry := Some(now + TOKEN_LIFETIME_MS);
        r := LoggedIn(issued);
    }

    /** The 401 reset: both fields cleared, so no instant finds the token reusable. */
    method Invalidate()
      modifies this
      ensures token == None && expiry == None
      ensures forall t :: !Reusable(t)
    {
      token := None;
      expiry := None;
    }
  }
}
