/**
 * The numeric bounds of the editor: the `clamp` helper and the rule by which
 * a number field turns its text into the integer it emits
 * (`clamp(parseInt(text || 0, 10), min, max)`).
 */
module Numbers {
  import opened Options
  import opened JsonValues

  /** `Math.min(Math.max(n, lo), hi)`. */
  function Clamp(n: int, lo: int, hi: int): (r: int)
    ensures lo <= hi ==> lo <= r <= hi
    ensures lo <= n <= hi ==> r == n
    ensures n < lo <= hi ==> r == lo
    ensures hi < n || hi < lo ==> r == hi
  {
    var atLeastLo := if n < lo then lo else n;
    if atLeastLo < hi then atLeastLo else hi
  }

  /** Clamping twice to the same range is clamping once. */
  lemma ClampIdempotent(n: int, lo: int, hi: int)
    ensures Clamp(Clamp(n, lo, hi), lo, hi) == Clamp(n, lo, hi)
  {
  }

  /** Clamping to a range, then to a range inside it, is clamping to the inner range. */
  lemma ClampNested(n: int, lo: int, hi: int, lo': int, hi': int)
    requires lo <= lo' <= hi' <= hi
    ensures Clamp(Clamp(n, lo, hi), lo', hi') == Clamp(n, lo', hi')
  {
  }

  /** The characters `parseInt` skips before the number (the ECMAScript white space and line terminators). */
  predicate IsJsWhiteSpace(c: char)
    ensures IsJsWhiteSpace(c) ==> !IsDigit(c) && c != '-' && c != '+'
  {
    c == '\t' || c == '\n' || c == '\U{000B}' || c == '\U{000C}' || c == '\r' || c == ' '
    || c == '\U{00A0}' || c == '\U{1680}' || ('\U{2000}' <= c <= '\U{200A}')
    || c == '\U{2028}' || c == '\U{2029}' || c == '\U{202F}' || c == '\U{205F}'
    || c == '\U{3000}' || c == '\U{FEFF}'
  }

  /** Every character is white space. */
  predicate AllWhiteSpace(w: string)
  {
    forall i :: 0 <= i < |w| ==> IsJsWhiteSpace(w[i])
  }

  /** The text with its leading white space removed. */
  function TrimStart(s: string): (r: string)
    ensures r == [] || !IsJsWhiteSpace(r[0])
    ensures |r| <= |s|
  {
    if s != [] && IsJsWhiteSpace(s[0]) then TrimStart(s[1..]) else s
  }

  /** What is removed is a white-space prefix, and the rest of the text is kept as it was. */
  lemma {:induction false} TrimStartDropsWhiteSpace(s: string)
    ensures var r := TrimStart(s);
      s == s[..|s| - |r|] + r && AllWhiteSpace(s[..|s| - |r|])
  {
    if s != [] && IsJsWhiteSpace(s[0]) {
      TrimStartDropsWhiteSpace(s[1..]);
      var r := TrimStart(s);
      var t := s[1..];
      assert s[..|s| - |r|] == [s[0]] + t[..|t| - |r|];
    } else {
      assert s[..0] == [];
    }
  }

  /** Leading white space is skipped, and all of it. */
  lemma {:induction false} TrimStartOfWhiteSpace(w: string, t: string)
    requires AllWhiteSpace(w)
    requires t == [] || !IsJsWhiteSpace(t[0])
    ensures TrimStart(w + t) == t
  {
    if w != [] {
      assert (w + t)[0] == w[0];
      assert (w + t)[1..] == w[1..] + t;
      TrimStartOfWhiteSpace(w[1..], t);
    } else {
      assert w + t == t;
    }
  }

  /** The longest prefix of decimal digits. */
  function DigitPrefix(s: string): (r: string)
    ensures AllDigits(r)
  {
    if s == [] || !IsDigit(s[0]) then [] else [s[0]] + DigitPrefix(s[1..])
  }

  /**
   * `parseInt(text, 10)`: leading white space, an optional sign, then as many
   * decimal digits as there are; None (NaN) when there is no digit.
   */
  function ParseInt(text: string): (r: Option<int>)
    ensures r.Some? && r.value < 0 ==> TrimStart(text) != [] && TrimStart(text)[0] == '-'
    ensures r.Some? && r.value > 0 ==> TrimStart(text) != [] && TrimStart(text)[0] != '-'
  {
    ParseSigned(TrimStart(text))
  }

  /** The text after one leading sign, if there is one. */
  function Unsigned(t: string): (u: string)
    ensures t != [] && (t[0] == '-' || t[0] == '+') ==> u == t[1..]
    ensures t == [] || (t[0] != '-' && t[0] != '+') ==> u == t
  {
    if t != [] && (t[0] == '-' || t[0] == '+') then t[1..] else t
  }

  /** An optional sign followed by the digits. */
  function ParseSigned(t: string): (r: Option<int>)
    ensures r.Some? && r.value < 0 ==> t != [] && t[0] == '-'
    ensures r.Some? && r.value > 0 ==> t != [] && t[0] != '-'
  {
    if t != [] && t[0] == '-' then Negate(ParseDigits(t[1..]))
    else if t != [] && t[0] == '+' then ParseDigits(t[1..])
    else ParseDigits(t)
  }

  /** A number results exactly when a digit follows the optional sign. */
  lemma ParseSignedDefined(t: string)
    ensures ParseSigned(t).Some? <==> Unsigned(t) != [] && IsDigit(Unsigned(t)[0])
  {
  }

  /** The value of the leading digits; None when there are none. */
  function ParseDigits(s: string): (r: Option<int>)
    ensures r.Some? ==> r.value >= 0
  {
    var digits := DigitPrefix(s);
    if digits == [] then None else Some(DigitsValue(digits))
  }

  function Negate(r: Option<int>): Option<int>
  {
    match r
    case None => None
    case Some(v) => Some(-v)
  }

  /** A digit string followed by anything that does not start with a digit: the digits are the prefix. */
  lemma {:induction false} DigitPrefixOfDigits(d: string, rest: string)
    requires AllDigits(d)
    requires rest == [] || !IsDigit(rest[0])
    ensures DigitPrefix(d + rest) == d
  {
    if d != [] {
      assert (d + rest)[1..] == d[1..] + rest;
      DigitPrefixOfDigits(d[1..], rest);
    } else {
      assert d + rest == rest;
    }
  }

  /**
   * The decimal text of `n` followed by anything that does not start with a
   * digit parses back to `n`: "12", "-3", and also "1.5" and "1e3" (to 1).
   */
  lemma ParseIntOfIntToString(n: int, rest: string)
    requires rest == [] || !IsDigit(rest[0])
    ensures ParseInt(IntToString(n) + rest) == Some(n)
  {
    var m: nat := if n < 0 then -n else n;
    var d := NatToString(m);
    assert ParseDigits(d + rest) == Some(m) by {
      DigitPrefixOfDigits(d, rest);
      DigitsValueOfNatToString(m);
    }
    var t := IntToString(n) + rest;
    assert t[0] == '-' || IsDigit(t[0]);
    assert TrimStart(t) == t;
    if n < 0 {
      assert IntToString(n) == "-" + d;
      assert t[1..] == d + rest;
    } else {
      assert t == d + rest;
    }
  }

  /** A sign character in front of the digits. */
  lemma ParseSignedOfSign(c: char, u: string)
    requires c == '-' || c == '+'
    ensures ParseSigned([c] + u) == if c == '-' then Negate(ParseDigits(u)) else ParseDigits(u)
  {
    assert ([c] + u)[1..] == u;
  }

  /** The digit run with a tail that does not start with a digit. */
  lemma ParseDigitsValue(d: string, rest: string)
    requires d != [] && AllDigits(d)
    requires rest == [] || !IsDigit(rest[0])
    ensures ParseDigits(d + rest) == Some(DigitsValue(d))
    ensures ParseSigned(d + rest) == Some(DigitsValue(d))
  {
    DigitPrefixOfDigits(d, rest);
    assert (d + rest)[0] == d[0];
  }

  /** The value of a signed text: `-` negates the digits, `+` keeps them. */
  lemma ParseSignedValue(c: char, d: string, rest: string)
    requires c == '-' || c == '+'
    requires d != [] && AllDigits(d)
    requires rest == [] || !IsDigit(rest[0])
    ensures ParseSigned([c] + (d + rest)) == Some(if c == '-' then -(DigitsValue(d) as int) else DigitsValue(d) as int)
  {
    ParseDigitsValue(d, rest);
    ParseSignedOfSign(c, d + rest);
  }

  /**
   * The value `parseInt` reads from any text of the form white space, an
   * optional sign, a digit run and a tail that does not start with a digit:
   * " 7", "+7", "007" and "-12px" give 7, 7, 7 and -12.
   */
  lemma ParseIntValue(w: string, sign: string, d: string, rest: string)
    requires AllWhiteSpace(w)
    requires |sign| <= 1 && (sign == [] || sign[0] == '-' || sign[0] == '+')
    requires d != [] && AllDigits(d)
    requires rest == [] || !IsDigit(rest[0])
    ensures ParseInt(w + sign + d + rest) == Some(if sign != [] && sign[0] == '-' then -(DigitsValue(d) as int) else DigitsValue(d) as int)
  {
    var u := d + rest;
    var t := sign + u;
    assert w + sign + d + rest == w + t;
    if sign == [] {
      assert t == u && t[0] == d[0];
      TrimStartOfWhiteSpace(w, t);
      ParseDigitsValue(d, rest);
    } else {
      assert t == [sign[0]] + u;
      TrimStartOfWhiteSpace(w, t);
      ParseSignedValue(sign[0], d, rest);
    }
  }

  /** `parseInt` gives NaN exactly when no digit follows the white space and the optional sign ("", "-", "a1", " +x9"). */
  lemma ParseIntNoDigits(text: string)
    ensures ParseInt(text) == None <==> (var u := Unsigned(TrimStart(text)); u == [] || !IsDigit(u[0]))
  {
    ParseSignedDefined(TrimStart(text));
  }

  /** `parseInt(String(n), 10)` is `n` for the model's integers; JavaScript agrees below 1e21 in magnitude. */
  lemma ParseIntOfDisplayString(n: int)
    ensures ParseInt(ToDisplayString(JNum(n))) == Some(n)
  {
    assert IntToString(n) + "" == IntToString(n);
    ParseIntOfIntToString(n, "");
  }

  /**
   * What a number field emits for its text: `clamp(parseInt(text || 0, 10),
   * min, max)`. An empty text counts as 0. None stands for NaN.
   */
  function NumberInputEmit(text: string, min: int, max: int): (r: Option<int>)
    ensures text == "" ==> r == Some(Clamp(0, min, max))
    ensures min <= max && r.Some? ==> min <= r.value <= max
    ensures r.None? <==> ParseInt(text).None? && text != ""
  {
    assert ParseInt("0") == Some(0) by {
      assert IntToString(0) + "" == "0";
      ParseIntOfIntToString(0, "");
    }
    var parsed := ParseInt(if text == "" then "0" else text);
    match parsed
    case None => None
    case Some(n) => Some(Clamp(n, min, max))
  }

  /** Typing the decimal text of `n` (with any non-digit tail) emits `n` clamped to the field's range. */
  lemma NumberInputOfTypedInt(n: int, rest: string, min: int, max: int)
    requires rest == [] || !IsDigit(rest[0])
    ensures NumberInputEmit(IntToString(n) + rest, min, max) == Some(Clamp(n, min, max))
  {
    ParseIntOfIntToString(n, rest);
  }
}
