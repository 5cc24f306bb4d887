/**
  The few pieces of JavaScript value semantics the delivery check relies on:
  truthiness of optional strings and numbers, the `a || b` default idiom,
  `toLowerCase` on ASCII text, `String.prototype.includes`, and the decimal
  rendering of a number inside a template literal.
 */
module JsSemantics {
  import opened Wrappers

  /** Truthiness of a string field: `undefined`, `null` and `""` are falsy. */
  predicate TruthyText(v: Option<string>) {
    v.Some? && v.value != ""
  }

  /** Truthiness of a number field: `undefined`, `null` and `0` are falsy. */
  predicate TruthyNumber(v: Option<nat>) {
    v.Some? && v.value != 0
  }

  /** `v || fallback` for a number field that may be absent. */
  function NumberOr(v: Option<nat>, fallback: nat): (r: nat)
    ensures TruthyNumber(v) ==> r == v.value
    ensures !TruthyNumber(v) ==> r == fallback
    ensures fallback != 0 ==> r != 0
  {
    if TruthyNumber(v) then v.value else fallback
  }

  function LowerChar(c: char): char {
    if 'A' <= c <= 'Z' then (c as int + 32) as char else c
  }

  /** `toLowerCase` restricted to ASCII letters. */
  function LowerAscii(s: string): (r: string)
    ensures |r| == |s|
    ensures forall i :: 0 <= i < |s| ==> r[i] == LowerChar(s[i])
    ensures forall i :: 0 <= i < |r| ==> !('A' <= r[i] <= 'Z')
  {
    seq(|s|, i requires 0 <= i < |s| => LowerChar(s[i]))
  }

  /** `s.includes(fragment)`: the fragment occurs somewhere in `s`. */
  predicate Includes(s: string, fragment: string)
    decreases |s|
  {
    (|fragment| <= |s| && s[..|fragment|] == fragment)
    || (|s| > 0 && Includes(s[1..], fragment))
  }

  /** The fragment sits in `s` starting at position `i`. */
  predicate OccursAt(s: string, fragment: string, i: int) {
    0 <= i && i + |fragment| <= |s| && s[i..i + |fragment|] == fragment
  }

  lemma {:induction false} IncludesHasPosition(s: string, fragment: string) returns (i: int)
    requires Includes(s, fragment)
    ensures OccursAt(s, fragment, i)
    decreases |s|
  {
    if |fragment| <= |s| && s[..|fragment|] == fragment {
      i := 0;
    } else {
      var j := IncludesHasPosition(s[1..], fragment);
      assert s[j + 1..j + 1 + |fragment|] == s[1..][j..j + |fragment|];
      i := j + 1;
    }
  }

  lemma {:induction false} PositionGivesIncludes(s: string, fragment: string, i: int)
    requires OccursAt(s, fragment, i)
    ensures Includes(s, fragment)
    decreases i
  {
    if i == 0 {
      assert s[..|fragment|] == s[i..i + |fragment|];
    } else {
      assert s[1..][i - 1..i - 1 + |fragment|] == s[i..i + |fragment|];
      PositionGivesIncludes(s[1..], fragment, i - 1);
    }
  }

  /** `Includes` holds exactly when the fragment sits at some position of `s`. */
  lemma IncludesAt(s: string, fragment: string)
    ensures Includes(s, fragment) <==> exists i :: OccursAt(s, fragment, i)
  {
    if Includes(s, fragment) {
      var i := IncludesHasPosition(s, fragment);
    }
    if i :| OccursAt(s, fragment, i) {
      PositionGivesIncludes(s, fragment, i);
    }
  }

  function DigitChar(d: nat): char
    requires d < 10
  {
    (48 + d) as char
  }

  /** The decimal text JavaScript produces for a non-negative integer below 10^21. */
  function NatToString(n: nat): (r: string)
    ensures |r| >= 1
    ensures forall i :: 0 <= i < |r| ==> '0' <= r[i] <= '9'
    ensures r[0] == '0' ==> n == 0
    decreases n
  {
    if n < 10 then [DigitChar(n)] else NatToString(n / 10) + [DigitChar(n % 10)]
  }

  /** `String(n)` for an integer of magnitude below 10^21. */
  function IntToString(n: int): (r: string)
    ensures |r| >= 1
  {
    if n < 0 then "-" + NatToString(-n) else NatToString(n)
  }

  /** `10` to the power `k`. */
  function Pow10(k: nat): (r: nat)
    ensures r >= 1
    ensures k >= 1 ==> r >= 10
  {
    if k == 0 then 1 else 10 * Pow10(k - 1)
  }

  /** The decimal text of `n` has at most `k` digits exactly when `n < 10^k`. */
  lemma {:induction false} NatToStringLength(n: nat, k: nat)
    requires k >= 1
    ensures |NatToString(n)| <= k <==> n < Pow10(k)
    decreases n
  {
    if n >= 10 && k > 1 {
      NatToStringLength(n / 10, k - 1);
      assert n / 10 < Pow10(k - 1) <==> n < 10 * Pow10(k - 1);
    }
  }

  /** The number a string of decimal digits denotes. */
  function DecimalValue(s: string): nat
    requires forall i :: 0 <= i < |s| ==> '0' <= s[i] <= '9'
  {
    if s == [] then 0
    else DecimalValue(s[..|s| - 1]) * 10 + (s[|s| - 1] as int - 48)
  }

  /** Reading back the decimal text of `n` gives `n`. */
  lemma {:induction false} NatToStringRoundTrip(n: nat)
    ensures DecimalValue(NatToString(n)) == n
    decreases n
  {
    if n >= 10 {
      var r := NatToString(n);
      assert r[..|r| - 1] == NatToString(n / 10);
      NatToStringRoundTrip(n / 10);
    }
  }
}
