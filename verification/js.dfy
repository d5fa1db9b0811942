/**
 * The few pieces of JavaScript value semantics that the client code relies on:
 * optional values, truthiness of strings, `a || b || fallback` chains, the
 * decimal text of an integer (`n.toString()`), `String(v)` as used inside
 * template literals, and `Array.prototype.find` over records keyed by id.
 */
module Js {

  datatype Option<+T> = None | Some(value: T)

  /** A JSON value as the server and the client exchange it. Numbers are integers. */
  datatype Json =
    | JNull
    | JBool(b: bool)
    | JNum(n: int)
    | JStr(s: string)
    | JArr(items: seq<Json>)
    | JObj(fields: map<string, Json>)

  /** Property access `obj[key]`; a missing key reads as `undefined` (None). */
  function Get(obj: map<string, Json>, key: string): (v: Option<Json>)
    ensures v.Some? <==> key in obj
    ensures v.Some? ==> v.value == obj[key]
  {
    if key in obj then Some(obj[key]) else None
  }

  /** An optional string used as a condition: `undefined`, `null` and "" are falsy. */
  predicate Truthy(s: Option<string>)
  {
    s.Some? && s.value != ""
  }

  /**
   * `c[0] || c[1] || ... || fallback` over optional strings: the first truthy
   * candidate, or the fallback when none is truthy.
   */
  function FirstTruthy(c: seq<Option<string>>, fallback: string): (r: string)
    ensures (forall i :: 0 <= i < |c| ==> !Truthy(c[i])) ==> r == fallback
    ensures (exists i :: 0 <= i < |c| && Truthy(c[i])) ==>
              exists i :: 0 <= i < |c| && Truthy(c[i]) && r == c[i].value &&
                          forall j :: 0 <= j < i ==> !Truthy(c[j])
  {
    if |c| == 0 then fallback
    else if Truthy(c[0]) then c[0].value
    else
      var r := FirstTruthy(c[1..], fallback);
      assert forall i :: 1 <= i < |c| ==> c[i] == c[1..][i - 1];
      r
  }

  // ---- decimal text of integers -------------------------------------------

  predicate IsDigit(ch: char)
  {
    '0' <= ch <= '9'
  }

  function DigitChar(d: nat): (ch: char)
    requires d < 10
    ensures IsDigit(ch)
  {
    (48 + d) as char
  }

  function DigitValue(ch: char): (d: nat)
    requires IsDigit(ch)
    ensures d < 10 && DigitChar(d) == ch
  {
    (ch as int - 48) as nat
  }

  /** The digits of `n`, most significant first, with no leading zero. */
  function NatDigits(n: nat): (s: string)
    decreases n
  {
    if n < 10 then [DigitChar(n)] else NatDigits(n / 10) + [DigitChar(n % 10)]
  }

  /** `n.toString()` for an integer `n`. */
  function Decimal(n: int): (s: string)
  {
    if n < 0 then "-" + NatDigits(-n) else NatDigits(n)
  }

  predicate AllDigits(s: string)
  {
    forall i :: 0 <= i < |s| ==> IsDigit(s[i])
  }

  /** Reads a string of digits as a natural number. */
  function ParseNat(s: string): (n: nat)
    requires AllDigits(s)
    decreases |s|
  {
    if |s| == 0 then 0 else ParseNat(s[..|s| - 1]) * 10 + DigitValue(s[|s| - 1])
  }

  /** Reads an optionally signed decimal integer; anything else is not a number. */
  function ParseDecimal(s: string): (r: Option<int>)
  {
    if |s| > 0 && AllDigits(s) then Some(ParseNat(s))
    else if |s| > 1 && s[0] == '-' && AllDigits(s[1..]) then Some(-(ParseNat(s[1..]) as int))
    else None
  }

  lemma {:induction false} NatDigitsShape(n: nat)
    ensures |NatDigits(n)| >= 1 && AllDigits(NatDigits(n))
    ensures NatDigits(n)[0] != '0' || n == 0
    decreases n
  {
    if n >= 10 {
      NatDigitsShape(n / 10);
    }
  }

  lemma {:induction false} NatDigitsRoundTrip(n: nat)
    ensures AllDigits(NatDigits(n)) && ParseNat(NatDigits(n)) == n
    decreases n
  {
    NatDigitsShape(n);
    if n >= 10 {
      var s := NatDigits(n);
      NatDigitsRoundTrip(n / 10);
      assert s[..|s| - 1] == NatDigits(n / 10);
    }
  }

  /** The server reads back exactly the integer the client wrote. */
  lemma DecimalRoundTrip(n: int)
    ensures ParseDecimal(Decimal(n)) == Some(n)
  {
    if n < 0 {
      NatDigitsRoundTrip(-n);
      NatDigitsShape(-n);
      assert Decimal(n)[1..] == NatDigits(-n);
      assert !IsDigit(Decimal(n)[0]);
    } else {
      NatDigitsRoundTrip(n);
    }
  }

  // ---- String(v), as template literals use it ------------------------------

  /** `String(v)` for a JSON value. Arrays join their elements with "," and show null as "". */
  function JsonText(j: Json): (s: string)
    decreases j
  {
    match j
    case JNull => "null"
    case JBool(b) => if b then "true" else "false"
    case JNum(n) => Decimal(n)
    case JStr(s) => s
    case JObj(_) => "[object Object]"
    case JArr(items) => JoinWithCommas(seq(|items|, i requires 0 <= i < |items| =>
                                            if items[i].JNull? then "" else JsonText(items[i])))
  }

  function JoinWithCommas(parts: seq<string>): string
  {
    if |parts| == 0 then ""
    else if |parts| == 1 then parts[0]
    else parts[0] + "," + JoinWithCommas(parts[1..])
  }

  /** `${v}` inside a template literal, where `v` may be undefined. */
  function Text(v: Option<Json>): (s: string)
    ensures v.Some? && v.value.JStr? ==> s == v.value.s
    ensures v.None? ==> s == "undefined"
  {
    match v
    case None => "undefined"
    case Some(j) => JsonText(j)
  }

  // ---- Array.prototype.find over id-keyed records --------------------------

  /** `i` is the position of the first element of `xs` whose key is `id`. */
  predicate FirstMatch<T>(xs: seq<T>, key: T -> string, id: string, i: int)
  {
    0 <= i < |xs| && key(xs[i]) == id && forall j :: 0 <= j < i ==> key(xs[j]) != id
  }

  /**
   * The index of the first element whose key is `id` (what `xs.find(x => x.id === id)`
   * returns), or None when no element has that key.
   */
  function FindIndex<T>(xs: seq<T>, key: T -> string, id: string): (r: Option<nat>)
    ensures r.None? <==> forall i :: 0 <= i < |xs| ==> key(xs[i]) != id
    ensures r.Some? ==> FirstMatch(xs, key, id, r.value)
    ensures forall i :: FirstMatch(xs, key, id, i) ==> r == Some(i)
    decreases |xs|
  {
    if |xs| == 0 then None
    else if key(xs[0]) == id then Some(0)
    else
      match FindIndex(xs[1..], key, id)
      case None => None
      case Some(k) => Some(k + 1)
  }

  /** `xs.find(x => key(x) === id)`. */
  function Find<T>(xs: seq<T>, key: T -> string, id: string): (r: Option<T>)
    ensures r.None? <==> forall i :: 0 <= i < |xs| ==> key(xs[i]) != id
    ensures r.Some? ==> exists i :: FirstMatch(xs, key, id, i) && xs[i] == r.value
    ensures forall i :: FirstMatch(xs, key, id, i) ==> r == Some(xs[i])
  {
    match FindIndex(xs, key, id)
    case None => None
    case Some(k) => Some(xs[k])
  }
}
