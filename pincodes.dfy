/**
  Request gating and coordinate lookup for the delivery check: the six-digit
  format test, the fixed hyperlocal allow-list, the static pincode-to-point
  table with its Connaught Place fallback, and the caller's lat/lng override.
 */
module Pincodes {
  import opened Wrappers
  import opened JsSemantics

  /** A point as the service passes it along: two opaque decimal strings. */
  datatype Coords = Coords(lat: string, lng: string)

  /** The `pincode` member of the request body, as JSON may carry it. */
  datatype PincodeField = Missing | Text(text: string) | Number(number: int)

  /** The only pincodes the shop delivers to. */
  const HYPERLOCAL_PINCODES: seq<string> := [
    "110001", "110002", "110003", "110004", "110005", "110006", "110007",
    "110008", "110009", "110010", "110011", "110012", "110013", "110014",
    "110015", "110077", "110078", "110071", "110070"
  ]

  /** Known delivery points for Delhi pincodes. */
  const PINCODE_COORDINATES: map<string, Coords> := map[
    "110001" := Coords("28.6139", "77.2090"),
    "110002" := Coords("28.6328", "77.2197"),
    "110003" := Coords("28.7041", "77.1025"),
    "110004" := Coords("28.6517", "77.2219"),
    "110005" := Coords("28.6436", "77.2186"),
    "110006" := Coords("28.6304", "77.2177"),
    "110007" := Coords("28.6455", "77.2167"),
    "110008" := Coords("28.6341", "77.2419"),
    "110009" := Coords("28.6219", "77.2324"),
    "110010" := Coords("28.6341", "77.2419"),
    "110011" := Coords("28.6219", "77.2324"),
    "110012" := Coords("28.5729", "77.2545"),
    "110013" := Coords("28.6341", "77.2419"),
    "110014" := Coords("28.5985", "77.2386"),
    "110015" := Coords("28.5355", "77.2499"),
    "110077" := Coords("28.4595", "77.0266"),
    "110078" := Coords("28.5355", "77.2499"),
    "110071" := Coords("28.5355", "77.2499"),
    "110070" := Coords("28.5355", "77.2499")
  ]

  /** The point used for a pincode the table does not know (central Delhi). */
  const DEFAULT_COORDS := Coords("28.6139", "77.2090")

  predicate IsAsciiDigit(c: char) {
    '0' <= c <= '9'
  }

  /** The anchored pattern `^\d{n}$`: exactly `n` ASCII digits, nothing before or after. */
  predicate MatchesDigitRun(s: string, n: nat)
    decreases n
  {
    if n == 0 then s == []
    else |s| > 0 && IsAsciiDigit(s[0]) && MatchesDigitRun(s[1..], n - 1)
  }

  /** `^\d{n}$` accepts a string exactly when it has length `n` and only digits. */
  lemma {:induction false} DigitRunShape(s: string, n: nat)
    ensures MatchesDigitRun(s, n) <==>
      |s| == n && forall i :: 0 <= i < |s| ==> IsAsciiDigit(s[i])
    decreases n
  {
    if n > 0 && |s| > 0 {
      DigitRunShape(s[1..], n - 1);
      assert forall i :: 1 <= i < |s| ==> s[i] == s[1..][i - 1];
    }
  }

  /** `!pincode || !/^\d{6}$/.test(pincode)` is false: the value is truthy and,
      coerced to a string, is six digits. */
  predicate PassesFormatCheck(p: PincodeField) {
    match p
    case Missing => false
    case Text(s) => s != "" && MatchesDigitRun(s, 6)
    case Number(n) => n != 0 && MatchesDigitRun(IntToString(n), 6)
  }

  /** `HYPERLOCAL_PINCODES.includes(pincode)`: strict equality, so only a string can match. */
  predicate InAllowList(p: PincodeField) {
    p.Text? && p.text in HYPERLOCAL_PINCODES
  }

  /** The format test in plain terms: a string passes when it is six ASCII
      digits; a number passes when its decimal text is, that is exactly when it
      lies in 100000..999999, since a number's text never has a leading zero. */
  lemma FormatCheckShape(p: PincodeField)
    ensures p.Missing? ==> !PassesFormatCheck(p)
    ensures p.Text? ==>
      (PassesFormatCheck(p) <==> |p.text| == 6 && forall i :: 0 <= i < 6 ==> IsAsciiDigit(p.text[i]))
    ensures p.Number? ==> (PassesFormatCheck(p) <==> 100000 <= p.number <= 999999)
  {
    match p
    case Missing =>
    case Text(s) =>
      DigitRunShape(s, 6);
    case Number(n) =>
      var s := IntToString(n);
      DigitRunShape(s, 6);
      if n < 0 {
        assert !IsAsciiDigit(s[0]);
      } else {
        NatToStringLength(n, 6);
        NatToStringLength(n, 5);
        assert Pow10(5) == 100000 && Pow10(6) == 1000000;
      }
  }

  /** Only a string can be on the allow-list (the comparison is strict), and
      every listed string is six digits with its own point in the table. */
  lemma AllowListStrict(p: PincodeField)
    ensures InAllowList(p) ==> p.Text? && p.text in PINCODE_COORDINATES
    ensures InAllowList(p) ==> |p.text| == 6 && forall i :: 0 <= i < 6 ==> IsAsciiDigit(p.text[i])
  {
    if InAllowList(p) {
      AllowListWellFormed();
      DigitRunShape(p.text, 6);
    }
  }

  /** Every allow-listed pincode is well formed and has its own entry in the point table. */
  lemma AllowListWellFormed()
    ensures forall p :: p in HYPERLOCAL_PINCODES ==> MatchesDigitRun(p, 6) && p in PINCODE_COORDINATES
  {
  }

  /** An allow-listed field always passes the format check, so admission
      depends on the allow-list alone. */
  lemma AdmittedIffAllowListed(p: PincodeField)
    ensures PassesFormatCheck(p) && InAllowList(p) <==> InAllowList(p)
  {
    if InAllowList(p) {
      AllowListWellFormed();
    }
  }

  /** `getCoordinatesForPincode`: the table entry, or the default point. */
  function CoordinatesForPincode(pincode: string): (c: Coords)
    ensures pincode in PINCODE_COORDINATES ==> c == PINCODE_COORDINATES[pincode]
    ensures pincode !in PINCODE_COORDINATES ==> c == DEFAULT_COORDS
    ensures c in PINCODE_COORDINATES.Values
  {
    if pincode in PINCODE_COORDINATES then PINCODE_COORDINATES[pincode]
    else
      assert PINCODE_COORDINATES["110001"] == DEFAULT_COORDS;
      DEFAULT_COORDS
  }

  /** The delivery point sent upstream: the caller's lat/lng when both are
      truthy, otherwise the pincode's point. */
  function DeliveryCoordinates(pincode: string, lat: Option<string>, lng: Option<string>): (c: Coords)
    ensures TruthyText(lat) && TruthyText(lng) ==> c == Coords(lat.value, lng.value)
    ensures !(TruthyText(lat) && TruthyText(lng)) ==> c == CoordinatesForPincode(pincode)
  {
    if TruthyText(lat) && TruthyText(lng) then Coords(lat.value, lng.value)
    else CoordinatesForPincode(pincode)
  }

  /** For an allow-listed pincode without a full override the point comes from
      the table itself, never from the fallback. */
  lemma AllowListedPointFromTable(pincode: string, lat: Option<string>, lng: Option<string>)
    requires pincode in HYPERLOCAL_PINCODES
    requires !(TruthyText(lat) && TruthyText(lng))
    ensures pincode in PINCODE_COORDINATES
    ensures DeliveryCoordinates(pincode, lat, lng) == PINCODE_COORDINATES[pincode]
  {
  }

  /** The `/get-coordinates/:pincode` answer: the point and whether the table knows the pincode. */
  function LookupCoordinates(pincode: string): (r: (Coords, bool))
    ensures r.1 <==> pincode in PINCODE_COORDINATES
    ensures r.1 ==> r.0 == PINCODE_COORDINATES[pincode]
    ensures !r.1 ==> r.0 == DEFAULT_COORDS
  {
    (CoordinatesForPincode(pincode), pincode in PINCODE_COORDINATES)
  }
}
