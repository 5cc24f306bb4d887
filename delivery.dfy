/**
  The `POST /check-delivery` handler: validate the pincode, check the
  allow-list, obtain the Shiprocket token, ask the serviceability endpoint,
  and turn its reply into the checkout answer; the catch block answers 401
  (clearing the token) or 500. The clock, the login outcome and the upstream
  reply are parameters; the trace records which collaborators were used and
  with what request.
 */
module Delivery {
  import opened Wrappers
  import opened JsSemantics
  import opened Pincodes
  import opened Credentials
  import opened Couriers

  /** The request body (`weight` and `cod` are read but never used by the handler). */
  datatype Request = Request(pincode: PincodeField, lat: Option<string>, lng: Option<string>)

  /** What the serviceability GET produced: a 2xx reply body, an HTTP error
      status, or no response at all. */
  datatype Upstream = Answered(payload: Payload) | HttpError(status: int) | NoResponse

  /** The warehouse the parcels leave from. */
  const PICKUP_PINCODE := "110077"
  const PICKUP_COORDS := Coords("28.4595", "77.0266")

  /** Fixed query parameters: 0.5 kg, prepaid, hyperlocal enabled. */
  const QUERY_WEIGHT_GRAMS: nat := 500
  const QUERY_COD: nat := 0
  const QUERY_NEW_HYPERLOCAL: nat := 1

  /** The serviceability GET as sent. */
  datatype Query = Query(
    pickupPostcode: string,
    deliveryPostcode: string,
    weightGrams: nat,
    cod: nat,
    newHyperlocal: nat,
    from: Coords,
    to: Coords,
    bearer: Option<string>)

  /** Which collaborators a request reached: the token manager (and what it
      did) and the serviceability endpoint (and what was asked). */
  datatype Trace = Trace(acquired: Option<Acquired>, query: Option<Query>)

  /** An HTTP status and a JSON body. */
  datatype Reply = Reply(status: nat, body: Body)

  /** An exception reaching the handler's catch block, with the HTTP status of
      the response attached to it when it came from an HTTP call. */
  datatype Thrown = Thrown(message: string, responseStatus: Option<int>)

  const INVALID_PINCODE_MESSAGE := "Invalid pincode format. Please enter a 6-digit pincode."
  const NOT_DELIVERABLE_MESSAGE := "We don't deliver here. To place order, message us on 1234567890"
  const AUTH_REJECTED_MESSAGE := "Authentication failed. Please try again."
  const SERVER_ERROR_MESSAGE := "Failed to check delivery availability. Please try again later."

  /** The two checks made before any collaborator is used; `None` lets the request through. */
  function Gate(p: PincodeField): (r: Option<Reply>)
    ensures !PassesFormatCheck(p) ==> r == Some(Reply(400, Fail(INVALID_PINCODE_MESSAGE, None)))
    ensures PassesFormatCheck(p) && !InAllowList(p) ==> r == Some(Reply(200, Fail(NOT_DELIVERABLE_MESSAGE, None)))
    ensures r.None? <==> InAllowList(p)
  {
    AdmittedIffAllowListed(p);
    if !PassesFormatCheck(p) then Some(Reply(400, Fail(INVALID_PINCODE_MESSAGE, None)))
    else if !InAllowList(p) then Some(Reply(200, Fail(NOT_DELIVERABLE_MESSAGE, None)))
    else None
  }

  /** A pincode sent as a JSON number never gets past the gate. */
  lemma NumericPincodeRefused(n: int)
    ensures Gate(Number(n)).Some?
    ensures Gate(Number(n)).value.body == Fail(INVALID_PINCODE_MESSAGE, None)
      || Gate(Number(n)).value == Reply(200, Fail(NOT_DELIVERABLE_MESSAGE, None))
  {
  }

  /** The request `checkHyperlocalServiceability` sends. */
  function ServiceabilityQuery(pincode: string, bearer: Option<string>, lat: Option<string>, lng: Option<string>): (q: Query)
    ensures q.deliveryPostcode == pincode && q.bearer == bearer
    ensures q.pickupPostcode == PICKUP_PINCODE && q.from == PINCODE_COORDINATES[PICKUP_PINCODE]
    ensures q.weightGrams == 500 && q.cod == 0 && q.newHyperlocal == 1
    ensures TruthyText(lat) && TruthyText(lng) ==> q.to == Coords(lat.value, lng.value)
    ensures !(TruthyText(lat) && TruthyText(lng)) ==> q.to == CoordinatesForPincode(pincode)
    ensures !(TruthyText(lat) && TruthyText(lng)) ==> q.to in PINCODE_COORDINATES.Values
  {
    Query(PICKUP_PINCODE, pincode, QUERY_WEIGHT_GRAMS, QUERY_COD, QUERY_NEW_HYPERLOCAL,
          PICKUP_COORDS, DeliveryCoordinates(pincode, lat, lng), bearer)
  }

  /** `checkHyperlocalServiceability`'s result: the reply body, or `null` for
      every failure, an HTTP 401 included. */
  function ServiceabilityResult(u: Upstream): (r: Option<Payload>)
    ensures r.Some? <==> u.Answered?
    ensures u.Answered? ==> r == Some(u.payload)
  {
    match u
    case Answered(p) => Some(p)
    case _ => None
  }

  /** The catch block: a 401 response clears the credential and answers 401;
      anything else answers 500 with the error's message. */
  method Recover(cache: TokenCache, err: Thrown) returns (resp: Reply)
    modifies cache
    ensures err.responseStatus == Some(401) ==>
      resp == Reply(401, Fail(AUTH_REJECTED_MESSAGE, None)) && forall t :: !cache.Reusable(t)
    ensures err.responseStatus == Some(401) ==> cache.token == None && cache.expiry == None
    ensures err.responseStatus != Some(401) ==>
      resp == Reply(500, Fail(SERVER_ERROR_MESSAGE, Some(err.message)))
      && cache.token == old(cache.token) && cache.expiry == old(cache.expiry)
  {
    if err.responseStatus == Some(401) {
      cache.Invalidate();
      resp := Reply(401, Fail(AUTH_REJECTED_MESSAGE, None));
    } else {
      resp := Reply(500, Fail(SERVER_ERROR_MESSAGE, Some(err.message)));
    }
  }

  /** The handler as written: the serviceability client turns every failure
      into `null`, so the 401 branch of the catch block is never reached and
      a cached token survives any upstream reply. */
  method CheckDelivery(cache: TokenCache, req: Request, now: int, login: LoginOutcome, upstream: Upstream)
    returns (resp: Reply, trace: Trace)
    modifies cache
    ensures Gate(req.pincode).Some? ==>
      resp == Gate(req.pincode).value && trace == Trace(None, None)
      && cache.token == old(cache.token) && cache.expiry == old(cache.expiry)
    ensures Gate(req.pincode).None? ==> trace.acquired.Some?
    ensures trace.acquired.Some? ==> (trace.acquired.value.Reused? <==> old(cache.Reusable(now)))
    ensures trace.acquired.Some? && !old(cache.Reusable(now)) ==>
      trace.acquired.value == (if login.LoginRejected? then AuthFailed else LoggedIn(login.token))
    ensures trace.acquired.Some? && old(cache.Reusable(now)) ==>
      trace.acquired.value.Reused? && Some(trace.acquired.value.cached) == old(cache.token)
    ensures trace.acquired == Some(AuthFailed) ==>
      resp == Reply(500, Fail(SERVER_ERROR_MESSAGE, Some(AUTH_FAILED_MESSAGE))) && trace.query == None
    ensures trace.acquired.Some? && !trace.acquired.value.AuthFailed? ==>
      && trace.query == Some(ServiceabilityQuery(req.pincode.text, TokenOf(trace.acquired.value), req.lat, req.lng))
      && resp == Reply(200, Evaluate(ServiceabilityResult(upstream)))
    ensures trace.acquired.Some? && trace.acquired.value.LoggedIn? ==>
      cache.token == trace.acquired.value.issued && cache.expiry == Some(now + TOKEN_LIFETIME_MS)
    ensures trace.acquired == Some(AuthFailed) ==> cache.token == old(cache.token) && cache.expiry == old(cache.expiry)
    ensures resp.status != 401
    ensures old(cache.Reusable(now)) ==> cache.token == old(cache.token) && cache.expiry == old(cache.expiry)
  {
    var rejected := Gate(req.pincode);
    if rejected.Some? {
      return rejected.value, Trace(None, None);
    }
    var acquired := cache.Acquire(now, login);
    if acquired.AuthFailed? {
      resp := Recover(cache, Thrown(AUTH_FAILED_MESSAGE, None));
      return resp, Trace(Some(acquired), None);
    }
    var query := ServiceabilityQuery(req.pincode.text, TokenOf(acquired), req.lat, req.lng);
    resp := Reply(200, Evaluate(ServiceabilityResult(upstream)));
    trace := Trace(Some(acquired), Some(query));
  }

  /** The handler as the catch block intends it: an HTTP 401 from the
      serviceability endpoint is rethrown, clears the credential and answers
      401; every other upstream failure still reads as `null`. */
  method CheckDeliveryReauth(cache: TokenCache, req: Request, now: int, login: LoginOutcome, upstream: Upstream)
    returns (resp: Reply, trace: Trace)
    modifies cache
    ensures Gate(req.pincode).Some? ==>
      resp == Gate(req.pincode).value && trace == Trace(None, None)
      && cache.token == old(cache.token) && cache.expiry == old(cache.expiry)
    ensures Gate(req.pincode).None? ==> trace.acquired.Some?
    ensures trace.acquired.Some? ==> (trace.acquired.value.Reused? <==> old(cache.Reusable(now)))
    ensures trace.acquired.Some? && !old(cache.Reusable(now)) ==>
      trace.acquired.value == (if login.LoginRejected? then AuthFailed else LoggedIn(login.token))
    ensures trace.acquired.Some? && old(cache.Reusable(now)) ==>
      trace.acquired.value.Reused? && Some(trace.acquired.value.cached) == old(cache.token)
    ensures trace.acquired == Some(AuthFailed) ==>
      resp == Reply(500, Fail(SERVER_ERROR_MESSAGE, Some(AUTH_FAILED_MESSAGE))) && trace.query == None
    ensures trace.acquired.Some? && !trace.acquired.value.AuthFailed? ==>
      trace.query == Some(ServiceabilityQuery(req.pincode.text, TokenOf(trace.acquired.value), req.lat, req.lng))
    ensures trace.acquired == Some(AuthFailed) ==> cache.token == old(cache.token) && cache.expiry == old(cache.expiry)
    ensures trace.query.Some? && upstream == HttpError(401) ==>
      && resp == Reply(401, Fail(AUTH_REJECTED_MESSAGE, None))
      && cache.token == None && cache.expiry == None && forall t :: !cache.Reusable(t)
    ensures trace.query.Some? && upstream != HttpError(401) ==>
      resp == Reply(200, Evaluate(ServiceabilityResult(upstream)))
    ensures upstream != HttpError(401) && trace.acquired.Some? && trace.acquired.value.LoggedIn? ==>
      cache.token == trace.acquired.value.issued && cache.expiry == Some(now + TOKEN_LIFETIME_MS)
    ensures upstream != HttpError(401) && trace.acquired.Some? && trace.acquired.value.Reused? ==>
      cache.token == old(cache.token) && cache.expiry == old(cache.expiry)
  {
    var rejected := Gate(req.pincode);
    if rejected.Some? {
      return rejected.value, Trace(None, None);
    }
    var acquired := cache.Acquire(now, login);
    if acquired.AuthFailed? {
      resp := Recover(cache, Thrown(AUTH_FAILED_MESSAGE, None));
      return resp, Trace(Some(acquired), None);
    }
    var query := ServiceabilityQuery(req.pincode.text, TokenOf(acquired), req.lat, req.lng);
    trace := Trace(Some(acquired), Some(query));
    if upstream == HttpError(401) {
      resp := Recover(cache, Thrown("Request failed with status code 401", Some(401)));
    } else {
      resp := Reply(200, Evaluate(ServiceabilityResult(upstream)));
    }
  }

  /** Two requests five seconds apart: the first logs in, the second reuses its token. */
  method SecondRequestReusesToken() returns (first: Trace, second: Trace)
    ensures first.acquired == Some(LoggedIn(Some("t")))
    ensures second.acquired == Some(Reused("t"))
  {
    var cache := new TokenCache();
    var resp;
    resp, first := CheckDelivery(cache, Request(Text("110001"), None, None), 0, LoginAnswered(Some("t")), NoResponse);
    resp, second := CheckDelivery(cache, Request(Text("110001"), None, None), 5000, LoginRejected, NoResponse);
  }

  /** As written: a token the upstream has revoked stays cached after the 401,
      and the next request reuses it without logging in. */
  method RevokedTokenSurvives() returns (resp: Reply, next: Acquired)
    ensures resp == Reply(200, Fail(NOT_AVAILABLE_MESSAGE, None))
    ensures next == Reused("revoked")
  {
    var cache := new TokenCache();
    var first := cache.Acquire(0, LoginAnswered(Some("revoked")));
    var trace;
    resp, trace := CheckDelivery(cache, Request(Text("110001"), None, None), 1000, LoginRejected, HttpError(401));
    next := cache.Acquire(2000, LoginAnswered(Some("renewed")));
  }

  /** Intended: after the 401 the next request logs in again and gets the new token. */
  method RevokedTokenReplaced() returns (resp: Reply, next: Acquired)
    ensures resp == Reply(401, Fail(AUTH_REJECTED_MESSAGE, None))
    ensures next == LoggedIn(Some("renewed"))
  {
    var cache := new TokenCache();
    var first := cache.Acquire(0, LoginAnswered(Some("revoked")));
    var trace;
    resp, trace := CheckDeliveryReauth(cache, Request(Text("110001"), None, None), 1000, LoginRejected, HttpError(401));
    next := cache.Acquire(2000, LoginAnswered(Some("renewed")));
  }
}
