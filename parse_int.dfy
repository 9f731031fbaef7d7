/**
 * The global `parseInt(s, 10)` of ECMAScript, over `seq<char>`: leading white
 * space is skipped, one optional `+` or `-` sign is read, then the longest run of
 * decimal digits; everything after that run is ignored. No digits gives NaN,
 * modelled as `None`.
 */
module JsParseInt {
  import opened Wrappers
  import opened Text

  /** The longest prefix of `s` made of decimal digits. */
  function DigitPrefix(s: string): (r: string)
    ensures AllDigits(r) && |r| <= |s|
  {
    if s != [] && IsDigit(s[0]) then [s[0]] + DigitPrefix(s[1..]) else []
  }

  /** The run `DigitPrefix` reads is a prefix of its input, and no digit follows it. */
  lemma {:induction false} DigitPrefixIsLongest(s: string)
    ensures DigitPrefix(s) == s[..|DigitPrefix(s)|]
    ensures |DigitPrefix(s)| == |s| || !IsDigit(s[|DigitPrefix(s)|])
  {
    if s != [] && IsDigit(s[0]) {
      DigitPrefixIsLongest(s[1..]);
    }
  }

  /** What follows the sign of `t`, if `t` starts with one. */
  function Unsigned(t: string): (r: string)
    ensures |r| <= |t|
  {
    if t != [] && (t[0] == '-' || t[0] == '+') then t[1..] else t
  }

  /** `parseInt(s, 10)`; `None` is `NaN`. */
  function ParseInt(s: string): Option<int> {
    var t := TrimStart(s);
    var digits := DigitPrefix(Unsigned(t));
    var magnitude: int := if digits == [] then 0 else DigitsValue(digits);
    if digits == [] then None
    else if t[0] == '-' then Some(-magnitude)
    else Some(magnitude)
  }

  lemma {:induction false} ConcatAssoc(a: string, b: string, c: string)
    ensures a + b + c == a + (b + c)
  {
  }

  lemma {:induction false} DropHead(c: char, t: string)
    ensures ([c] + t)[1..] == t
  {
  }

  lemma {:induction false} DigitPrefixOfDigits(d: string, rest: string)
    requires AllDigits(d)
    requires rest == [] || !IsDigit(rest[0])
    ensures DigitPrefix(d + rest) == d
  {
    if d != [] {
      assert (d + rest)[1..] == d[1..] + rest;
      DigitPrefixOfDigits(d[1..], rest);
    } else {
      assert d + rest == rest;
    }
  }

  /** Once the white space is skipped, an unsigned run of digits is read up to its end. */
  lemma {:induction false} ParseIntOfTrimmed(s: string, d: string, rest: string)
    requires |d| >= 1 && AllDigits(d)
    requires rest == [] || !IsDigit(rest[0])
    requires TrimStart(s) == d + rest
    ensures ParseInt(s) == Some(DigitsValue(d))
  {
    assert IsDigit((d + rest)[0]);
    assert Unsigned(d + rest) == d + rest;
    DigitPrefixOfDigits(d, rest);
  }

  /** The same after a minus sign. */
  lemma {:induction false} ParseIntOfTrimmedNegative(s: string, d: string, rest: string)
    requires |d| >= 1 && AllDigits(d)
    requires rest == [] || !IsDigit(rest[0])
    requires TrimStart(s) == "-" + d + rest
    ensures ParseInt(s) == Some(0 - DigitsValue(d))
  {
    var tail := d + rest;
    ConcatAssoc("-", d, rest);
    DropHead('-', tail);
    assert Unsigned("-" + tail) == tail;
    DigitPrefixOfDigits(d, rest);
  }

  /**
   * White space, then a run of digits, then anything that does not start with a
   * digit, parses to the value of the run: `"010"` is 10, `"10.5"` is 10, `" 30 "` is 30.
   */
  lemma {:induction false} ParseDigitPrefix(ws: string, d: string, rest: string)
    requires AllWhitespace(ws)
    requires |d| >= 1 && AllDigits(d)
    requires rest == [] || !IsDigit(rest[0])
    ensures ParseInt(ws + d + rest) == Some(DigitsValue(d))
  {
    var tail := d + rest;
    ConcatAssoc(ws, d, rest);
    assert IsDigit(tail[0]);
    TrimStartOfLeadingWhitespace(ws, tail);
    ParseIntOfTrimmed(ws + tail, d, rest);
  }

  /** The same with a minus sign in front of the digits. */
  lemma {:induction false} ParseNegativeDigitPrefix(ws: string, d: string, rest: string)
    requires AllWhitespace(ws)
    requires |d| >= 1 && AllDigits(d)
    requires rest == [] || !IsDigit(rest[0])
    ensures ParseInt(ws + "-" + d + rest) == Some(0 - DigitsValue(d))
  {
    var tail := "-" + d + rest;
    ConcatAssoc(ws, "-", d);
    ConcatAssoc(ws, "-" + d, rest);
    TrimStartOfLeadingWhitespace(ws, tail);
    ParseIntOfTrimmedNegative(ws + tail, d, rest);
  }

  /** A run of digits alone reads as its value. */
  lemma {:induction false} ParseDigits(d: string)
    requires |d| >= 1 && AllDigits(d)
    ensures ParseInt(d) == Some(DigitsValue(d))
  {
    assert !IsWhitespace(d[0]);
    assert TrimStart(d) == d + "";
    ParseIntOfTrimmed(d, d, "");
  }

  /** A minus sign and a run of digits read as the negated value. */
  lemma {:induction false} ParseNegativeDigits(d: string)
    requires |d| >= 1 && AllDigits(d)
    ensures ParseInt("-" + d) == Some(0 - DigitsValue(d))
  {
    var s := "-" + d;
    assert s[0] == '-';
    assert TrimStart(s) == s;
    assert s == "-" + d + "";
    ParseIntOfTrimmedNegative(s, d, "");
  }

  /** `parseInt(String(i), 10) == i` for every integer. */
  lemma {:induction false} ParseIntToString(i: int)
    ensures ParseInt(IntToString(i)) == Some(i)
  {
    if i >= 0 {
      var d := NatToString(i);
      assert IntToString(i) == d;
      ParseDigits(d);
    } else {
      var d := NatToString(-i);
      assert IntToString(i) == "-" + d;
      ParseNegativeDigits(d);
    }
  }

  /** A string without any digit is NaN (`"abc"`, `""`, `" "`, `"-"`). */
  lemma {:induction false} ParseIntWithoutDigits(s: string)
    requires forall i :: 0 <= i < |s| ==> !IsDigit(s[i])
    ensures ParseInt(s) == None
  {
    var t := TrimStart(s);
    var u := Unsigned(t);
    TrimStartIsSuffix(s);
    assert t == s[|s| - |t|..];
    if u != [] {
      assert u[0] == t[|t| - |u|];
      assert u[0] == s[|s| - |u|];
    }
  }
}
