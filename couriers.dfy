/**
  Courier selection and delivery-speed classification: from the serviceability
  payload to the record the checkout shows. Quick couriers are picked by a
  name fragment or a short ETA, the first of them wins (else the upstream's
  first courier), and the winner's ETA hours are mapped to a label, a text,
  a tier and a hyperlocal flag by a ladder of thresholds.
 */
module Couriers {
  import opened Wrappers
  import opened JsSemantics

  /** One entry of `data.available_courier_companies`. */
  datatype Courier = Courier(
    name: Option<string>,         // courier_name
    companyId: Option<nat>,       // courier_company_id
    etdHours: Option<nat>,        // etd_hours
    etd: Option<string>,          // etd (the upstream's own estimate text)
    freightCharge: Option<nat>,   // freight_charge
    rate: Option<nat>)            // rate

  /** The serviceability reply body, as far as the handler looks at it. */
  datatype Payload = Payload(status: Option<int>, data: Option<PayloadData>)
  datatype PayloadData = PayloadData(couriers: Option<seq<Courier>>)

  datatype Tier = Quick | Express | Fast | Standard

  /** The checkout answer for a delivery request. */
  datatype Quote = Quote(
    deliveryTime: string,
    deliveryCharge: nat,
    courierName: Option<string>,
    courierId: Option<nat>,
    etdText: string,
    isHyperlocal: bool,
    serviceType: string,
    etdHours: nat,
    totalCouriers: nat,
    hyperlocalCouriers: nat)

  /** A JSON body `{success: false, message, error?}` or `{success: true, ...quote}`. */
  datatype Body = Fail(message: string, error: Option<string>) | Ok(quote: Quote)

  /** Name fragments of the known hyperlocal providers, matched in lower case. */
  const HYPERLOCAL_FRAGMENTS: seq<string> := [
    "shadowfax", "dunzo", "borzo", "ola", "flash", "loadshare",
    "rapido", "wefast", "porter", "delhivery", "ecom"
  ]

  const QUICK_ETD_LIMIT_HOURS: nat := 12
  const FILTER_UNKNOWN_ETD_HOURS: nat := 999
  const DEFAULT_ETD_HOURS: nat := 48
  const DEFAULT_DELIVERY_CHARGE: nat := 49

  const NOT_AVAILABLE_MESSAGE := "Delivery not available for this pincode"
  const NO_COURIER_MESSAGE := "No courier available for delivery to this pincode"

  /** `courier.courier_name?.toLowerCase() || ""` */
  function SearchName(c: Courier): string {
    match c.name
    case Some(s) => LowerAscii(s)
    case None => ""
  }

  predicate IsHyperlocalProvider(c: Courier) {
    exists i :: 0 <= i < |HYPERLOCAL_FRAGMENTS| && Includes(SearchName(c), HYPERLOCAL_FRAGMENTS[i])
  }

  /** The filter predicate: a known provider, or `(etd_hours || 999) <= 12`. */
  predicate IsQuick(c: Courier) {
    IsHyperlocalProvider(c) || NumberOr(c.etdHours, FILTER_UNKNOWN_ETD_HOURS) <= QUICK_ETD_LIMIT_HOURS
  }

  /** A courier is quick exactly when some provider fragment occurs in its
      lower-cased name, or it reports between 1 and 12 hours (0 and a missing
      value both read as 999). */
  lemma QuickByNameOrEta(c: Courier)
    ensures IsHyperlocalProvider(c) <==>
      exists i, j :: 0 <= i < |HYPERLOCAL_FRAGMENTS| && OccursAt(SearchName(c), HYPERLOCAL_FRAGMENTS[i], j)
    ensures IsQuick(c) <==>
      IsHyperlocalProvider(c) || (c.etdHours.Some? && 1 <= c.etdHours.value <= QUICK_ETD_LIMIT_HOURS)
  {
    forall i | 0 <= i < |HYPERLOCAL_FRAGMENTS| {
      IncludesAt(SearchName(c), HYPERLOCAL_FRAGMENTS[i]);
    }
  }

  /** `xs` is `ys` with some elements dropped and the rest kept in order. */
  predicate IsSubsequence<T(==)>(xs: seq<T>, ys: seq<T>)
    decreases |ys|
  {
    if xs == [] then true
    else if ys == [] then false
    else (xs[0] == ys[0] && IsSubsequence(xs[1..], ys[1..])) || IsSubsequence(xs, ys[1..])
  }

  lemma {:induction false} SubsequenceNoLonger<T>(xs: seq<T>, ys: seq<T>)
    requires IsSubsequence(xs, ys)
    ensures |xs| <= |ys|
    decreases |ys|
  {
    if xs != [] {
      if xs[0] == ys[0] && IsSubsequence(xs[1..], ys[1..]) {
        SubsequenceNoLonger(xs[1..], ys[1..]);
      } else {
        SubsequenceNoLonger(xs, ys[1..]);
      }
    }
  }

  /** `xs.filter(p)`: the elements satisfying `p`, in their original order. */
  function Filter<T(==)>(xs: seq<T>, p: T -> bool): (r: seq<T>)
    ensures IsSubsequence(r, xs)
    ensures |r| <= |xs|
    ensures forall i :: 0 <= i < |r| ==> p(r[i]) && r[i] in xs
    ensures forall i :: 0 <= i < |xs| && p(xs[i]) ==> xs[i] in r
  {
    if xs == [] then []
    else
      var rest := Filter(xs[1..], p);
      SubsequenceNoLonger(rest, xs[1..]);
      if p(xs[0]) then
        assert ([xs[0]] + rest)[1..] == rest;
        [xs[0]] + rest
      else
        assert xs == [xs[0]] + xs[1..];
        rest
  }

  /** The head of a non-empty filter result is the first element satisfying `p`. */
  lemma {:induction false} FilterHeadIsFirstMatch<T>(xs: seq<T>, p: T -> bool)
    ensures |Filter(xs, p)| > 0 <==> exists i :: 0 <= i < |xs| && p(xs[i])
    ensures |Filter(xs, p)| > 0 ==>
      exists k :: 0 <= k < |xs| && xs[k] == Filter(xs, p)[0] && p(xs[k])
        && forall j :: 0 <= j < k ==> !p(xs[j])
  {
    if xs != [] && !p(xs[0]) {
      var tail := xs[1..];
      FilterHeadIsFirstMatch(tail, p);
      assert forall i :: 1 <= i < |xs| ==> xs[i] == tail[i - 1];
      if |Filter(xs, p)| > 0 {
        var k :| 0 <= k < |tail| && tail[k] == Filter(tail, p)[0] && p(tail[k])
          && forall j :: 0 <= j < k ==> !p(tail[j]);
        assert xs[k + 1] == Filter(xs, p)[0];
      }
    }
  }

  /** Each value keeps all its copies when it qualifies and loses them all otherwise. */
  lemma {:induction false} FilterKeepsMultiplicity<T>(xs: seq<T>, p: T -> bool, x: T)
    ensures multiset(Filter(xs, p))[x] == if p(x) then multiset(xs)[x] else 0
  {
    if xs != [] {
      FilterKeepsMultiplicity(xs[1..], p, x);
      assert xs == [xs[0]] + xs[1..];
    }
  }

  /** `couriers.filter(...)` with the quick-courier predicate. */
  function QuickCouriers(cs: seq<Courier>): seq<Courier> {
    Filter(cs, IsQuick)
  }

  /** `quickCouriers.length > 0 ? quickCouriers[0] : couriers[0]` */
  function Selected(cs: seq<Courier>): (c: Courier)
    requires |cs| > 0
    ensures c in cs
  {
    var q := QuickCouriers(cs);
    if |q| > 0 then q[0] else cs[0]
  }

  /** The selected courier is the first quick courier when one exists, and the
      upstream's first courier otherwise. */
  lemma SelectionIsFirstMatch(cs: seq<Courier>)
    requires |cs| > 0
    ensures (exists i :: 0 <= i < |cs| && IsQuick(cs[i])) ==>
      exists k :: 0 <= k < |cs| && cs[k] == Selected(cs) && IsQuick(cs[k])
        && forall j :: 0 <= j < k ==> !IsQuick(cs[j])
    ensures (forall i :: 0 <= i < |cs| ==> !IsQuick(cs[i])) ==> Selected(cs) == cs[0]
  {
    FilterHeadIsFirstMatch(cs, IsQuick);
  }

  /** `Math.ceil(hours / 24)` for whole hours. */
  function DaysFor(hours: nat): nat {
    (hours + 23) / 24
  }

  /** The ceiling bounds `hours` by the whole days around it. */
  lemma CeilDays(hours: nat)
    ensures (DaysFor(hours) - 1) * 24 < hours <= DaysFor(hours) * 24
    ensures hours > 24 ==> DaysFor(hours) >= 2
  {
  }

  function TierName(t: Tier): string {
    match t
    case Quick => "quick"
    case Express => "express"
    case Fast => "fast"
    case Standard => "standard"
  }

  /** Ordering of tiers from fastest to slowest. */
  function TierRank(t: Tier): nat {
    match t
    case Quick => 0
    case Express => 1
    case Fast => 2
    case Standard => 3
  }

  /** Label, text, tier and hyperlocal flag for an ETA of `hours`. */
  datatype Eta = Eta(deliveryTime: string, etdText: string, tier: Tier, isHyperlocal: bool)

  /** The threshold ladder, first match wins; `etd` is the selected courier's own text. */
  function Classify(hours: nat, etd: Option<string>): (e: Eta)
    ensures e.isHyperlocal <==> hours <= QUICK_ETD_LIMIT_HOURS
    ensures e.tier == Quick <==> hours <= 8
    ensures e.tier == Express <==> 8 < hours <= 12
    ensures e.tier == Fast <==> 12 < hours <= 24
    ensures e.tier == Standard <==> hours > 24
  {
    if hours <= 4 then Eta("2-4 hours", "Same Day (2-4 hours)", Quick, true)
    else if hours <= 8 then Eta("4-8 hours", "Same Day (4-8 hours)", Quick, true)
    else if hours <= 12 then Eta("Same Day", "Same Day Delivery", Express, true)
    else if hours <= 24 then Eta("Next Day", "Next Day Delivery", Fast, false)
    else
      var days := DaysFor(hours);
      Eta(NatToString(days) + " days",
          if TruthyText(etd) then etd.value else "Delivery in " + NatToString(days) + " days",
          Standard, false)
  }

  /** The label and text of each band up to a day, for every ETA in it. */
  lemma BandLabels(hours: nat, etd: Option<string>)
    ensures hours <= 4 ==>
      (Classify(hours, etd).deliveryTime == "2-4 hours" && Classify(hours, etd).etdText == "Same Day (2-4 hours)")
    ensures 4 < hours <= 8 ==>
      (Classify(hours, etd).deliveryTime == "4-8 hours" && Classify(hours, etd).etdText == "Same Day (4-8 hours)")
    ensures 8 < hours <= 12 ==>
      (Classify(hours, etd).deliveryTime == "Same Day" && Classify(hours, etd).etdText == "Same Day Delivery")
    ensures 12 < hours <= 24 ==>
      (Classify(hours, etd).deliveryTime == "Next Day" && Classify(hours, etd).etdText == "Next Day Delivery")
  {
  }

  /** A later ETA never lands in a faster tier. */
  lemma TierMonotone(h1: nat, h2: nat, e1: Option<string>, e2: Option<string>)
    requires h1 <= h2
    ensures TierRank(Classify(h1, e1).tier) <= TierRank(Classify(h2, e2).tier)
  {
  }

  /** Beyond a day the label names the rounded-up number of days, at least two,
      and the text is the upstream's when it is truthy. */
  lemma {:induction false} StandardLabel(hours: nat, etd: Option<string>)
    requires hours > 24
    ensures exists days: nat ::
      (&& days >= 2 && (days - 1) * 24 < hours <= days * 24
       && Classify(hours, etd).deliveryTime == NatToString(days) + " days"
       && DecimalValue(NatToString(days)) == days
       && Classify(hours, etd).etdText ==
            (if TruthyText(etd) then etd.value else "Delivery in " + NatToString(days) + " days"))
  {
    var days := DaysFor(hours);
    CeilDays(hours);
    NatToStringRoundTrip(days);
  }

  /** `freight_charge || rate || 49` */
  function ChargeOf(c: Courier): (r: nat)
    ensures r > 0
    ensures TruthyNumber(c.freightCharge) ==> r == c.freightCharge.value
    ensures !TruthyNumber(c.freightCharge) && TruthyNumber(c.rate) ==> r == c.rate.value
    ensures !TruthyNumber(c.freightCharge) && !TruthyNumber(c.rate) ==> r == DEFAULT_DELIVERY_CHARGE
  {
    NumberOr(c.freightCharge, NumberOr(c.rate, DEFAULT_DELIVERY_CHARGE))
  }

  /** `data.available_courier_companies` when the reply is non-null, has
      status 200 and carries that list (possibly empty). */
  function CourierList(payload: Option<Payload>): (r: Option<seq<Courier>>)
    ensures r.Some? ==> payload == Some(Payload(Some(200), Some(PayloadData(r))))
    ensures payload.Some? && payload.value.status == Some(200) && payload.value.data.Some? ==>
      r == payload.value.data.value.couriers
  {
    if payload.Some? && payload.value.status == Some(200)
       && payload.value.data.Some? && payload.value.data.value.couriers.Some?
    then payload.value.data.value.couriers
    else None
  }

  /** The record's courier fields, charge and hours are those of `c`. */
  predicate FromCourier(q: Quote, c: Courier) {
    && q.courierName == c.name && q.courierId == c.companyId
    && q.deliveryCharge == ChargeOf(c) && q.etdHours == NumberOr(c.etdHours, DEFAULT_ETD_HOURS)
  }

  /** The success record for a non-empty courier list. */
  function Decide(cs: seq<Courier>): (q: Quote)
    requires |cs| > 0
    ensures q.totalCouriers == |cs|
    ensures q.hyperlocalCouriers <= q.totalCouriers
    ensures q.hyperlocalCouriers > 0 <==> exists i :: 0 <= i < |cs| && IsQuick(cs[i])
    ensures exists i :: 0 <= i < |cs| && FromCourier(q, cs[i])
    ensures q.deliveryCharge > 0 && q.etdHours > 0
    ensures q.isHyperlocal <==> q.etdHours <= QUICK_ETD_LIMIT_HOURS
    ensures q.isHyperlocal ==> q.hyperlocalCouriers > 0
    ensures FromCourier(q, Selected(cs)) && q.hyperlocalCouriers == |QuickCouriers(cs)|
    ensures var e := Classify(q.etdHours, Selected(cs).etd);
      && q.deliveryTime == e.deliveryTime && q.etdText == e.etdText
      && q.serviceType == TierName(e.tier) && q.isHyperlocal == e.isHyperlocal
  {
    var quick := QuickCouriers(cs);
    var c := Selected(cs);
    var hours := NumberOr(c.etdHours, DEFAULT_ETD_HOURS);
    var eta := Classify(hours, c.etd);
    FilterHeadIsFirstMatch(cs, IsQuick);
    assert hours <= QUICK_ETD_LIMIT_HOURS ==> NumberOr(c.etdHours, FILTER_UNKNOWN_ETD_HOURS) == hours;
    assert hours <= QUICK_ETD_LIMIT_HOURS ==> c in quick;
    var q := Quote(eta.deliveryTime, ChargeOf(c), c.name, c.companyId, eta.etdText, eta.isHyperlocal,
          TierName(eta.tier), hours, |cs|, |quick|);
    var i :| 0 <= i < |cs| && cs[i] == c;
    assert FromCourier(q, cs[i]);
    q
  }

  /** The result of the serviceability step for the reply the upstream gave
      (`None` standing for `null`). */
  function Evaluate(payload: Option<Payload>): (b: Body)
    ensures b.Ok? <==> CourierList(payload).Some? && |CourierList(payload).value| > 0
    ensures b.Ok? ==> b.quote == Decide(CourierList(payload).value)
    ensures b.Fail? ==> b.error == None
    ensures b.Fail? ==>
      (b.message == NO_COURIER_MESSAGE <==> CourierList(payload) == Some([]))
    ensures b.Fail? && CourierList(payload).None? ==> b.message == NOT_AVAILABLE_MESSAGE
  {
    match CourierList(payload)
    case None => Fail(NOT_AVAILABLE_MESSAGE, None)
    case Some(cs) =>
      if |cs| == 0 then Fail(NO_COURIER_MESSAGE, None) else Ok(Decide(cs))
  }
}
