# Shiprocket hyperlocal delivery check, modelled in Dafny

This project models the decision logic of the `POST /check-delivery` handler of
the shiprocket-backend service (`index.js`). The handler answers one checkout
question: can this order be delivered to this pincode, and how fast? It has
three parts, each modelled here:

- **Credential cache** (`credentials.dfy`, module `Credentials`). The
  process-wide Shiprocket bearer token and its expiry become the class
  `TokenCache` with two fields. `Acquire` reuses the token while it is truthy
  and its expiry lies strictly after `now`. Otherwise it logs in again and sets
  the expiry to `now` + 9 days (777 600 000 ms). `Invalidate` is the 401 reset.
  The clock and the login outcome are parameters.
- **Request gating and coordinates** (`pincodes.dfy`, module `Pincodes`).
  - The `^\d{6}$` format test is written as an anchored digit-run matcher.
  - The allow-list is the fixed list of 19 Delhi pincodes.
  - The pincode-to-point table falls back to the Connaught Place point.
  - A caller's lat/lng override the table only when both are truthy.
  - The `/get-coordinates` lookup is modelled too.
- **Courier selection and tiers** (`couriers.dfy`, module `Couriers`).
  - A courier is quick when its lower-cased name contains one of the 11
    provider fragments, or when `etd_hours || 999` is at most 12.
  - The first quick courier is selected, otherwise the upstream's first
    courier.
  - `etd_hours || 48` goes through the 4/8/12/24-hour ladder. Beyond 24 hours
    the label is `ceil(h/24)` days.
  - The charge is `freight_charge || rate || 49`.
  - Only a status-200 reply whose `data.available_courier_companies` is
    present and non-empty succeeds.
- **The handler** (`delivery.dfy`, module `Delivery`). The steps run in order:
  gate, token, serviceability query, evaluation, then the catch block. A
  returned trace records whether the token manager and the serviceability
  endpoint were reached, and with which query.

`js_semantics.dfy` holds the JavaScript value rules the code leans on:
- truthiness and the `a || b` default, with `0` and absent numbers falsy;
- ASCII `toLowerCase` and `includes`;
- the decimal text of a number.

`scenarios.dfy` holds concrete cases: the tier ladder at 3/6/10/20/50 hours,
name-based selection, and an end-to-end four-hour courier.

Numeric fields are `Option<nat>`, where `None` is an absent or `null` field.
Hours are whole numbers, and `Math.ceil(h/24)` is `(h + 23) / 24`.

The code is narrower than a general delivery check, and the model follows it:
- There is no geocoding chain and no coordinate cache, only the static table.
- Only the `status === 200` / `data.available_courier_companies` reply shape
  is recognised.
- There is no "quick" name fragment.
- A login reply without a token is stored and returned (as `undefined`), not
  reported as an authentication error.
- The request's `weight` and `cod` are ignored: the query always sends 0.5 kg,
  prepaid.
- The allow-list is fixed and non-empty.
- An upstream 401 does not clear the token (see Findings).

## Model

| member | source | states |
|---|---|---|
| `JsSemantics.NumberOr` | index.js:228 | `v \|\| fallback` on an optional number: a truthy value wins, `0` or absent yields the fallback, and a non-zero fallback makes the result non-zero |
| `JsSemantics.LowerAscii` | index.js:227 | `toLowerCase` keeps the length, maps each character by itself, and leaves no upper-case ASCII letter |
| `JsSemantics.IntToString` | index.js:174 | `String(n)` coercion of a numeric pincode before the regex test: never empty; its six-digit cases are stated by `Pincodes.FormatCheckShape` |
| `JsSemantics.IncludesAt` | index.js:231-242 | `includes` holds exactly when the fragment occurs at some position of the name |
| `JsSemantics.NatToStringRoundTrip` | index.js:285-287 | the decimal text used in the "`days` days" label reads back as the same number |
| `Pincodes.DigitRunShape` | index.js:174 | `^\d{n}$` accepts exactly the strings of length n made only of ASCII digits |
| `Pincodes.FormatCheckShape` | index.js:174 | a missing field fails; a string passes exactly when it is six ASCII digits; a number passes exactly when it lies in 100000..999999 |
| `Pincodes.AllowListStrict` | index.js:182 | only a string can be on the allow-list, and a listed one is six digits with its own entry in the coordinate table |
| `Pincodes.AllowListWellFormed` | index.js:45-88 | every allow-listed pincode is six digits and has its own entry in the coordinate table |
| `Pincodes.AdmittedIffAllowListed` | index.js:174-188 | an allow-listed field always passes the format test, so admission depends on the allow-list alone |
| `Pincodes.CoordinatesForPincode` | index.js:100-108 | a mapped pincode gets its table entry, any other the default point, and the result is always a point of the table |
| `Pincodes.DeliveryCoordinates` | index.js:121-124 | the caller's lat/lng are used exactly when both are truthy, otherwise the pincode's point |
| `Pincodes.AllowListedPointFromTable` | index.js:121-124 | for an allow-listed pincode without a full override the delivery point is its own table entry, never the fallback |
| `Pincodes.LookupCoordinates` | index.js:467-477 | `is_mapped` holds exactly when the table knows the pincode, with the table point if so and the default point otherwise |
| `Credentials.TokenCache.constructor` | index.js:10-11 | the process starts with no token and no expiry |
| `Credentials.TokenCache.ReusableUntilExpiry` | index.js:17 | the reuse test: a falsy token never passes; a recorded expiry is a strict deadline; a `null` expiry passes only before the epoch; once failed, it never passes again later |
| `Credentials.TokenCache.Acquire` | index.js:16-42 | reuses the cached token with no login exactly when it is truthy and its expiry is after `now`; a failed login throws and leaves both fields unchanged; a login answer stores its token and sets expiry to `now` + 777600000; a fresh truthy token stays reusable for exactly the following 9 days |
| `Credentials.TokenCache.Invalidate` | index.js:312-314 | both fields cleared, so no later instant finds the token reusable and the next acquire logs in |
| `Couriers.QuickByNameOrEta` | index.js:226-248 | a courier is a hyperlocal provider exactly when one of the 11 fragments occurs in its lower-cased name, and quick exactly when it is a provider or reports 1 to 12 hours (0 or a missing value reads as 999) |
| `Couriers.FilterKeepsMultiplicity` | index.js:226-248 | a qualifying value keeps every copy in the filter result and a non-qualifying one keeps none, so `quickCouriers.length` counts duplicates as the list does |
| `Couriers.SubsequenceNoLonger` | index.js:303-304 | a subsequence is no longer than its source, so the count of hyperlocal couriers never exceeds the total |
| `Couriers.Filter` | index.js:226-248 | the filter result is an order-preserving subsequence of the list, all its elements satisfy the predicate, and every element that satisfies it is kept (copies are counted by `FilterKeepsMultiplicity`) |
| `Couriers.FilterHeadIsFirstMatch` | index.js:226-254 | the filter result is non-empty iff some element qualifies, and its head is then the first qualifying element |
| `Couriers.Selected` | index.js:253-254 | the selected courier is always an element of the non-empty list |
| `Couriers.SelectionIsFirstMatch` | index.js:252-254 | the selected courier is the first quick courier when one exists, else `couriers[0]` |
| `Couriers.CeilDays` | index.js:285 | `(h + 23) / 24` is the ceiling of h/24, and is at least 2 beyond 24 hours |
| `Couriers.Classify` | index.js:262-290 | the threshold ladder, first match wins: hyperlocal iff at most 12 hours; quick up to 8, express 9-12, fast 13-24, standard beyond |
| `Couriers.BandLabels` | index.js:262-283 | every ETA up to 4 hours reads "2-4 hours" / "Same Day (2-4 hours)", 5-8 "4-8 hours" / "Same Day (4-8 hours)", 9-12 "Same Day" / "Same Day Delivery", 13-24 "Next Day" / "Next Day Delivery" |
| `Couriers.TierMonotone` | index.js:262-290 | a longer ETA never lands in a faster tier |
| `Couriers.StandardLabel` | index.js:284-290 | beyond 24 hours the label is "`d` days" with d = ceil(h/24) ≥ 2, and the text is the courier's own `etd` when truthy, else "Delivery in `d` days" |
| `Couriers.ChargeOf` | index.js:296 | the charge is the freight charge when truthy, else the rate when truthy, else 49, and is always positive |
| `Couriers.CourierList` | index.js:201-205 | a courier list is taken only from a non-null reply with status 200 carrying exactly that list, and from every such reply whose `data` is present |
| `Couriers.Decide` | index.js:223-305 | the success record reports the selected courier (first quick one, else `couriers[0]`): its name, id, `freight_charge \|\| rate \|\| 49` and `etd_hours \|\| 48`; its label, text, service type and hyperlocal flag are the ladder's for those hours and its own `etd`; it counts all couriers and exactly the quick ones (some exactly when one qualifies); `is_hyperlocal` iff hours ≤ 12, and then at least one quick courier was counted |
| `Couriers.Evaluate` | index.js:201-221 | success exactly for a non-null status-200 reply with a present, non-empty courier list; a present but empty list gives the no-courier message, anything else the not-available message, with no courier fields |
| `Delivery.Gate` | index.js:173-188 | an invalid pincode gets 400 with the format message; a valid one off the allow-list gets the don't-deliver message; only an allow-listed pincode passes |
| `Delivery.NumericPincodeRefused` | index.js:174-188 | a pincode sent as a JSON number never passes the gate, because `includes` compares strictly |
| `Delivery.ServiceabilityQuery` | index.js:130-153 | the GET asks for the requested pincode from pickup 110077 at that pincode's own table point, 0.5 kg prepaid with hyperlocal on, carrying the acquired token; the destination is the caller's point when both coordinates are truthy, else the pincode's table point or the default point |
| `Delivery.ServiceabilityResult` | index.js:113-164 | the serviceability client yields the reply body for an answer and `null` for every failure |
| `Delivery.Recover` | index.js:306-326 | a thrown 401 sets both fields to `null`, leaving no reusable token, and answers 401; anything else answers 500 with the error message and leaves the credential alone |
| `Delivery.CheckDelivery` | index.js:169-327 | a rejected pincode is answered with no token acquisition, no query and no state change; otherwise the token is acquired: the cached one when it is reusable at `now`, else the login's answer, and a rejected login answers 500 without a query; after a token is obtained the query goes out with the delivery point and token, and the answer is `Evaluate` of the reply; a fresh login leaves its token cached with expiry `now` + 777600000, a failed login leaves the cache as it was; the handler never answers 401 and never drops a reusable token |
| `Delivery.CheckDeliveryReauth` | index.js:306-319 | corrected handler: as above (the same acquisition, tied to the old token and the login outcome, and the same cache after a login, a failed login or a reuse), but an HTTP 401 from the serviceability endpoint answers 401 and sets both fields to `null` |
| `Delivery.SecondRequestReusesToken` | index.js:16-31 | a request that logs in caches the token, and a second request five seconds later reuses it without logging in |
| `Delivery.RevokedTokenSurvives` | index.js:157-163 | as written: after an upstream 401 the reply is "Delivery not available" and the revoked token is reused by the next request |
| `Delivery.RevokedTokenReplaced` | index.js:312-319 | corrected: after an upstream 401 the reply is 401 and the next request logs in again |
| `Scenarios.LadderExamples` | index.js:262-290 | 3/6/10/20/50 hours give quick/quick/express/fast/standard, hyperlocal true/true/true/false/false, and 50 hours reads "3 days" |
| `Scenarios.MissingEtaIsTwoDays` | index.js:255 | a courier with no ETA is classified at 48 hours: "2 days", standard, not hyperlocal |
| `Scenarios.NameBeatsListOrder` | index.js:226-254 | with BlueDart (30 h) listed before Shadowfax Quick (30 h), Shadowfax Quick is selected on its name |
| `Scenarios.LoneSlowCourierIsStandard` | index.js:253-290 | BlueDart alone at 30 h is selected, in the standard tier, with no hyperlocal courier counted |
| `Scenarios.FourHourCourierEndToEnd` | index.js:201-305 | a status-200 reply with one courier at 4 h and freight charge 60 gives "2-4 hours", charge 60, quick, hyperlocal |

## Left out

- HTTP plumbing: Express setup, CORS, JSON body parsing, routing and `app.listen`.
- The network calls to the login, serviceability, quick-ship and tracking endpoints. Only their outcomes appear, as parameters: a login answer or failure, an upstream answer, HTTP error or no response.
- Logging and environment reads.
- `Date.now()`: it is the `now` parameter.
- `/create-quick-order`: a pass-through that copies fields with `||` defaults.
- `/track-order` and `/health`: relays with no decision logic.
- Concurrency between overlapping handlers sharing the token: each `Acquire`/`Invalidate` is atomic in the model.
- The `debug_info` member of the "Delivery not available" reply: it only echoes the upstream payload.
- Type errors thrown on malformed payloads become a 500 in the source and are not modelled. Examples: a non-array courier list, a `null` courier, a non-string `courier_name`. The payload fields here are always well typed.
- Fractional ETA hours and charges: hours and charges are whole numbers.
- Floating-point limits of JavaScript numbers: hours, charges and numeric pincodes are exact unbounded integers, and `NatToString` gives plain decimal text for all of them. JavaScript switches to exponent notation (`"1e+21"`) from 10^21 and is inexact above 2^53; a pincode that large fails the six-digit test either way.
- A pincode sent as a boolean, array or object, or as a non-integer number: the field is missing, a string or an integer.
- `lat`/`lng` sent as numbers: they are optional strings, with `""` falsy.
- Non-ASCII case mapping in `toLowerCase`: `LowerAscii` lowers only A-Z.
- Credentials.TokenCache.Acquire: the login takes no time. The source reads the clock before the login and again after it returns, so its expiry counts from the login's return; the model uses one `now` for both.
- Coordinate lookups of inherited object keys such as `toString` on `/get-coordinates`.

## Findings

| source | as written | input that shows it | evidently intended | confidence | as-written member | corrected member |
|---|---|---|---|---|---|---|
| index.js:157-163, 312-319 | `checkHyperlocalServiceability` turns every failure into `null`, and a login failure is rethrown without an HTTP response. So the catch block's 401 branch in `/check-delivery` is never reached and the token is never cleared | a cached token that Shiprocket revokes before its 9-day expiry: the serviceability GET answers 401, the handler replies "Delivery not available for this pincode" (200), and every later request reuses the revoked token until the expiry | a 401 from the serviceability endpoint clears the token and answers 401, so the next request logs in again | medium, not executed | `Delivery.RevokedTokenSurvives` | `Delivery.RevokedTokenReplaced` |
