/** Optional values: `None` stands for JavaScript's `undefined` or for a failure. */
module Options {
  datatype Option<T> = None | Some(value: T)
}

/**
 * The JSON values the editor's configuration is made of, and the few pieces
 * of JavaScript value semantics the engine relies on: conversion of a value
 * to a string (template literals and property keys) and object spread
 * (`{...x}`) of a parsed document.
 */
module JsonValues {
  import opened Options

  /** A parsed JSON value. Numbers are integers only. */
  datatype Json =
    | JNull
    | JBool(b: bool)
    | JNum(n: int)
    | JStr(s: string)
    | JArr(items: seq<Json>)
    | JObj(fields: map<string, Json>)

  /** The configuration object: its top-level keys and their values. */
  type Config = map<string, Json>

  predicate IsDigit(c: char) { '0' <= c <= '9' }

  predicate AllDigits(s: string) { forall i :: 0 <= i < |s| ==> IsDigit(s[i]) }

  function Digit(d: nat): (c: char)
    requires d < 10
    ensures IsDigit(c) && c as int - '0' as int == d
  {
    ('0' as int + d) as char
  }

  /** The decimal text of a natural number, all digits; JavaScript's String(n) agrees up to 2^53 and uses exponent form from 1e21. */
  function NatToString(n: nat): (r: string)
    ensures |r| >= 1 && AllDigits(r)
    ensures |r| == 1 <==> n < 10
    decreases n
  {
    if n < 10 then [Digit(n)] else NatToString(n / 10) + [Digit(n % 10)]
  }

  /** The number a string of decimal digits denotes. */
  function DigitsValue(s: string): nat
    requires AllDigits(s)
  {
    if s == [] then 0
    else DigitsValue(s[..|s| - 1]) * 10 + (s[|s| - 1] as int - '0' as int)
  }

  /** Reading back the decimal text of `n` gives `n`. */
  lemma {:induction false} DigitsValueOfNatToString(n: nat)
    ensures DigitsValue(NatToString(n)) == n
  {
    if n >= 10 {
      var p := NatToString(n / 10);
      var r := NatToString(n);
      assert r == p + [Digit(n % 10)];
      assert r[..|r| - 1] == p;
      DigitsValueOfNatToString(n / 10);
    }
  }

  /** Different numbers have different decimal texts. */
  lemma NatToStringInjective(a: nat, b: nat)
    requires NatToString(a) == NatToString(b)
    ensures a == b
  {
    DigitsValueOfNatToString(a);
    DigitsValueOfNatToString(b);
  }

  /** The decimal text of an integer, with a leading '-' when it is negative. */
  function IntToString(i: int): (r: string)
    ensures |r| >= 1
    ensures i >= 0 ==> AllDigits(r)
    ensures i < 0 ==> r[0] == '-' && AllDigits(r[1..])
  {
    if i < 0 then "-" + NatToString(-i) else NatToString(i)
  }

  /**
   * JavaScript's String(v): what a template literal such as
   * `ui-config-${v}.json` and a computed property key `obj[v]` turn `v` into.
   * Arrays are joined with "," and a null element becomes "".
   */
  function ToDisplayString(j: Json): (r: string)
    ensures j.JStr? ==> r == j.s
    ensures j.JArr? && j.items == [] ==> r == ""
    decreases j, 1
  {
    match j
    case JNull => "null"
    case JBool(b) => if b then "true" else "false"
    case JNum(n) => IntToString(n)
    case JStr(s) => s
    case JObj(_) => "[object Object]"
    case JArr(items) => JoinItems(j, |items|)
  }

  /** The first `k` items of array `a` converted and joined with ",". */
  function JoinItems(a: Json, k: nat): string
    requires a.JArr? && k <= |a.items|
    decreases a, 0, k
  {
    if k == 0 then ""
    else
      var last := if a.items[k - 1].JNull? then "" else ToDisplayString(a.items[k - 1]);
      if k == 1 then last else JoinItems(a, k - 1) + "," + last
  }

  /**
   * `String(v)` of a value that may be `undefined` (None): what a template
   * literal writes and what a property lookup `obj[v]` uses as its key.
   */
  function JsString(key: Option<Json>): (k: string)
    ensures key.None? ==> k == "undefined"
    ensures key.Some? && key.value.JStr? ==> k == key.value.s
  {
    match key
    case None => "undefined"
    case Some(j) => ToDisplayString(j)
  }

  /**
   * A one-element array converts like its element (a null element as ""),
   * so `["md"]` looks up the same property as `"md"`.
   */
  lemma DisplayStringOfSingleton(j: Json)
    ensures ToDisplayString(JArr([j])) == if j.JNull? then "" else ToDisplayString(j)
  {
  }

  /** A number looks up the same property as its decimal text: `obj[1]` is `obj["1"]`. */
  lemma JsStringOfNumber(n: int)
    ensures JsString(Some(JNum(n))) == JsString(Some(JStr(IntToString(n))))
  {
  }

  /**
   * The own properties of an array-like value: "0", "1", ... mapped to the
   * items. This is what object spread copies out of an array or a string.
   */
  function IndexMap(items: seq<Json>): map<string, Json>
  {
    if items == [] then map[]
    else IndexMap(items[..|items| - 1])[NatToString(|items| - 1) := items[|items| - 1]]
  }

  /** Index `i` of the array-like value is the property NatToString(i), and there are no others. */
  lemma {:induction false} IndexMapSpec(items: seq<Json>)
    ensures forall i :: 0 <= i < |items| ==> NatToString(i) in IndexMap(items) && IndexMap(items)[NatToString(i)] == items[i]
    ensures forall k :: k in IndexMap(items) ==> IsIndexBelow(k, |items|)
  {
    if items != [] {
      var n := |items|;
      var init := items[..n - 1];
      IndexMapSpec(init);
      forall i | 0 <= i < n - 1
        ensures NatToString(i) != NatToString(n - 1) && init[i] == items[i]
      {
        if NatToString(i) == NatToString(n - 1) { NatToStringInjective(i, n - 1); }
      }
      forall k | k in IndexMap(items) ensures IsIndexBelow(k, n) {
        if k != NatToString(n - 1) {
          assert IsIndexBelow(k, n - 1);
        }
      }
    }
  }

  /** `k` is the decimal text of an index below `n`. */
  ghost predicate IsIndexBelow(k: string, n: nat)
  {
    exists i :: 0 <= i < n && k == NatToString(i)
  }

  /** The characters of a string, each as a one-character string value. */
  function Chars(s: string): (r: seq<Json>)
    ensures |r| == |s| && forall i :: 0 <= i < |s| ==> r[i] == JStr([s[i]])
  {
    seq(|s|, i requires 0 <= i < |s| => JStr([s[i]]))
  }

  /**
   * The properties that `{...v}` copies out of a parsed value: an object's
   * fields, an array's or a string's indexed elements, and nothing for null,
   * booleans and numbers.
   */
  function Spread(v: Json): (m: map<string, Json>)
    ensures v.JObj? ==> m == v.fields
    ensures v.JNull? || v.JBool? || v.JNum? ==> m == map[]
    ensures v.JArr? ==> forall k :: k in m ==> IsIndexBelow(k, |v.items|)
    ensures v.JArr? ==> forall i :: 0 <= i < |v.items| ==> NatToString(i) in m && m[NatToString(i)] == v.items[i]
    ensures v.JStr? ==> forall k :: k in m ==> IsIndexBelow(k, |v.s|)
    ensures v.JStr? ==> forall i :: 0 <= i < |v.s| ==> NatToString(i) in m && m[NatToString(i)] == JStr([v.s[i]])
  {
    match v
    case JObj(fields) => fields
    case JArr(items) => IndexMapSpec(items); IndexMap(items)
    case JStr(s) => IndexMapSpec(Chars(s)); IndexMap(Chars(s))
    case _ => map[]
  }

  /**
   * A property read `v.key` on a value that is not null: the field of an
   * object, `undefined` (None) on anything else. Used only with keys that
   * are not array indices and not "length".
   */
  function Member(v: Json, key: string): (r: Option<Json>)
    requires !v.JNull?
    ensures r.Some? <==> v.JObj? && key in v.fields
    ensures r.Some? ==> r.value == v.fields[key]
  {
    if v.JObj? && key in v.fields then Some(v.fields[key]) else None
  }
}
