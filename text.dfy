/**
 * The string primitives the application relies on, over `string` = `seq<char>`:
 * ASCII digits and their values, the decimal printing of `Number.prototype.toString`
 * for integers, `padStart(2, "0")`, the ECMAScript white-space set used by
 * `String.prototype.trim` and `parseInt`, ASCII lower-casing and `includes`.
 */
module Text {

  // ---------------------------------------------------------------------------
  // Digits
  // ---------------------------------------------------------------------------

  /** The regular-expression class `\d` (without the `u` flag): ASCII digits only. */
  predicate IsDigit(c: char) { '0' <= c <= '9' }

  function DigitValue(c: char): (d: nat)
    requires IsDigit(c)
    ensures d < 10
  {
    (c as int) - ('0' as int)
  }

  function DigitChar(d: nat): (c: char)
    requires d < 10
    ensures IsDigit(c) && DigitValue(c) == d
  {
    (('0' as int) + d) as char
  }

  predicate AllDigits(s: string) {
    forall i :: 0 <= i < |s| ==> IsDigit(s[i])
  }

  /** The base-10 value of a digit string; leading zeros are allowed ("007" is 7). */
  function DigitsValue(s: string): nat
    requires AllDigits(s)
  {
    if s == [] then 0 else DigitsValue(s[..|s| - 1]) * 10 + DigitValue(s[|s| - 1])
  }

  /** A digit string as `toString` prints it: non-empty, and no leading zero unless it is "0". */
  predicate Canonical(s: string) {
    |s| >= 1 && AllDigits(s) && (|s| > 1 ==> s[0] != '0')
  }

  /** `n.toString()` for a non-negative integer `n`. */
  function NatToString(n: nat): (r: string)
    ensures Canonical(r) && DigitsValue(r) == n
    ensures n < 10 <==> |r| == 1
    ensures 10 <= n < 100 ==> |r| == 2
    decreases n
  {
    if n < 10 then [DigitChar(n)]
    else
      var prefix := NatToString(n / 10);
      var r := prefix + [DigitChar(n % 10)];
      assert r[..|r| - 1] == prefix;
      r
  }

  /** `i.toString()` for an integer `i`: a minus sign, then the digits of |i|. */
  function IntToString(i: int): (r: string)
    ensures i >= 0 ==> r == NatToString(i)
    ensures i < 0 ==> r == "-" + NatToString(-i)
  {
    if i < 0 then "-" + NatToString(-i) else NatToString(i)
  }

  lemma {:induction false} PositiveLeadingDigit(s: string)
    requires |s| >= 1 && AllDigits(s) && s[0] != '0'
    ensures DigitsValue(s) >= 1
  {
    if |s| > 1 {
      PositiveLeadingDigit(s[..|s| - 1]);
    }
  }

  /** Printing the value of a canonical digit string gives the string back. */
  lemma {:induction false} CanonicalRoundTrip(s: string)
    requires Canonical(s)
    ensures NatToString(DigitsValue(s)) == s
  {
    if |s| > 1 {
      var prefix := s[..|s| - 1];
      assert Canonical(prefix);
      CanonicalRoundTrip(prefix);
      PositiveLeadingDigit(prefix);
      var last := s[|s| - 1];
      var n := DigitsValue(s);
      assert n == DigitsValue(prefix) * 10 + DigitValue(last);
      DivModTen(DigitsValue(prefix), DigitValue(last));
      assert DigitChar(DigitValue(last)) == last;
      assert s == prefix + [last];
    } else {
      assert DigitChar(DigitValue(s[0])) == s[0];
    }
  }

  lemma {:induction false} DivModTen(a: nat, d: nat)
    requires d < 10
    ensures (a * 10 + d) / 10 == a && (a * 10 + d) % 10 == d
  {
  }

  /** One digit is below 10, two digits below 100. */
  lemma {:induction false} DigitsValueBound(s: string)
    requires AllDigits(s)
    ensures |s| == 1 ==> DigitsValue(s) < 10
    ensures |s| == 2 ==> DigitsValue(s) < 100
  {
    if |s| == 1 {
      assert s[..0] == [];
    } else if |s| == 2 {
      var p := s[..1];
      assert p[..0] == [];
      assert DigitsValue(p) < 10;
    }
  }

  /** `s.padStart(2, "0")`. */
  function PadStart2(s: string): (r: string)
    ensures |s| >= 2 ==> r == s
    ensures |s| < 2 ==> |r| == 2 && r[2 - |s|..] == s && (forall i :: 0 <= i < 2 - |s| ==> r[i] == '0')
  {
    if |s| >= 2 then s else if |s| == 1 then "0" + s else "00"
  }

  // ---------------------------------------------------------------------------
  // White space
  // ---------------------------------------------------------------------------

  /**
   * ECMAScript WhiteSpace and LineTerminator code points: TAB, LF, VT, FF, CR,
   * SPACE, NBSP, the other Unicode "Zs" separators, LS, PS and the BOM.
   */
  predicate IsWhitespace(c: char) {
    || c == '\t' || c == '\n' || c == '\U{000B}' || c == '\U{000C}' || c == '\r'
    || c == ' ' || c == '\U{00A0}' || c == '\U{1680}'
    || ('\U{2000}' <= c <= '\U{200A}')
    || c == '\U{2028}' || c == '\U{2029}' || c == '\U{202F}' || c == '\U{205F}'
    || c == '\U{3000}' || c == '\U{FEFF}'
  }

  predicate AllWhitespace(s: string) {
    forall i :: 0 <= i < |s| ==> IsWhitespace(s[i])
  }

  /** `s.trimStart()`: drop the leading white space. */
  function TrimStart(s: string): (r: string)
    ensures |r| <= |s|
    ensures r == [] || !IsWhitespace(r[0])
  {
    if s != [] && IsWhitespace(s[0]) then TrimStart(s[1..]) else s
  }

  /** What `trimStart` keeps is a suffix of its input, and only white space goes. */
  lemma {:induction false} TrimStartIsSuffix(s: string)
    ensures TrimStart(s) == s[|s| - |TrimStart(s)|..]
    ensures AllWhitespace(s[..|s| - |TrimStart(s)|])
  {
    if s != [] && IsWhitespace(s[0]) {
      TrimStartIsSuffix(s[1..]);
      var k := |s| - |TrimStart(s)|;
      assert s[1..][..k - 1] == s[1..k];
      assert forall i :: 1 <= i < k ==> s[i] == s[1..][..k - 1][i - 1];
    }
  }

  /** `s.trimEnd()`: drop the trailing white space. */
  function TrimEnd(s: string): (r: string)
    ensures |r| <= |s| && r == s[..|r|]
    ensures r == [] || !IsWhitespace(r[|r| - 1])
  {
    if s != [] && IsWhitespace(s[|s| - 1]) then TrimEnd(s[..|s| - 1]) else s
  }

  /** `s.trim()`. */
  function Trim(s: string): (r: string)
    ensures |r| <= |s|
    ensures r == [] || (!IsWhitespace(r[0]) && !IsWhitespace(r[|r| - 1]))
  {
    TrimEnd(TrimStart(s))
  }

  lemma {:induction false} TrimStartOfLeadingWhitespace(ws: string, t: string)
    requires AllWhitespace(ws)
    requires t == [] || !IsWhitespace(t[0])
    ensures TrimStart(ws + t) == t
  {
    if ws != [] {
      assert (ws + t)[1..] == ws[1..] + t;
      TrimStartOfLeadingWhitespace(ws[1..], t);
    }
  }

  // ---------------------------------------------------------------------------
  // Case and substrings
  // ---------------------------------------------------------------------------

  predicate IsUpper(c: char) { 'A' <= c <= 'Z' }
  predicate IsLower(c: char) { 'a' <= c <= 'z' }

  function LowerChar(c: char): (r: char)
    ensures !IsUpper(r)
    ensures !IsUpper(c) ==> r == c
  {
    if IsUpper(c) then ((c as int) + 32) as char else c
  }

  /** `s.toLowerCase()`, on the ASCII letters. */
  function ToLower(s: string): (r: string)
    ensures |r| == |s|
    ensures forall i :: 0 <= i < |s| ==> r[i] == LowerChar(s[i])
  {
    seq(|s|, i requires 0 <= i < |s| => LowerChar(s[i]))
  }

  /** A string with no upper-case letter is its own lower case. */
  lemma {:induction false} LowerOfLower(s: string)
    requires forall i :: 0 <= i < |s| ==> !IsUpper(s[i])
    ensures ToLower(s) == s
  {
  }

  /** Lower-casing maps white space to white space and nothing else to it. */
  lemma {:induction false} LowerKeepsWhitespace(c: char)
    ensures IsWhitespace(LowerChar(c)) <==> IsWhitespace(c)
  {
  }

  /** A string with no white space at either end is its own trim. */
  lemma {:induction false} TrimOfUnpadded(s: string)
    requires s != [] && !IsWhitespace(s[0]) && !IsWhitespace(s[|s| - 1])
    ensures Trim(s) == s
  {
    assert TrimStart(s) == s;
  }

  /** Trimming twice is trimming once. */
  lemma {:induction false} TrimIdempotent(s: string)
    ensures Trim(Trim(s)) == Trim(s)
  {
    if Trim(s) != [] {
      TrimOfUnpadded(Trim(s));
    }
  }

  /** Lower-casing and dropping the leading white space commute. */
  lemma {:induction false} TrimStartOfLower(s: string)
    ensures TrimStart(ToLower(s)) == ToLower(TrimStart(s))
    decreases |s|
  {
    if s != [] {
      LowerKeepsWhitespace(s[0]);
      if IsWhitespace(s[0]) {
        assert ToLower(s)[1..] == ToLower(s[1..]);
        TrimStartOfLower(s[1..]);
      }
    }
  }

  /** Lower-casing and dropping the trailing white space commute. */
  lemma {:induction false} TrimEndOfLower(s: string)
    ensures TrimEnd(ToLower(s)) == ToLower(TrimEnd(s))
    decreases |s|
  {
    if s != [] {
      LowerKeepsWhitespace(s[|s| - 1]);
      if IsWhitespace(s[|s| - 1]) {
        assert ToLower(s)[..|s| - 1] == ToLower(s[..|s| - 1]);
        TrimEndOfLower(s[..|s| - 1]);
      }
    }
  }

  /** `s.toLowerCase().trim()` is `s.trim().toLowerCase()`. */
  lemma {:induction false} TrimOfLower(s: string)
    ensures Trim(ToLower(s)) == ToLower(Trim(s))
  {
    TrimStartOfLower(s);
    TrimEndOfLower(TrimStart(s));
  }

  /** `s.includes(sub)`. */
  predicate Contains(s: string, sub: string) {
    exists i :: 0 <= i <= |s| - |sub| && OccursAt(s, sub, i)
  }

  predicate OccursAt(s: string, sub: string, i: int) {
    0 <= i <= |s| - |sub| && s[i..i + |sub|] == sub
  }

  /** A string contains each of its prefixes. */
  lemma {:induction false} ContainsPrefix(a: string, b: string)
    ensures Contains(a + b, a)
  {
    assert (a + b)[0..|a|] == a;
    assert OccursAt(a + b, a, 0);
  }

  // ---------------------------------------------------------------------------
  // Key order
  // ---------------------------------------------------------------------------

  /** Lexicographic order on strings, by character code. */
  predicate LexLe(a: string, b: string)
    decreases |a|
  {
    a == [] || (b != [] && (a[0] < b[0] || (a[0] == b[0] && LexLe(a[1..], b[1..]))))
  }

  lemma {:induction false} LexReflexive(a: string)
    ensures LexLe(a, a)
    decreases |a|
  {
    if a != [] {
      LexReflexive(a[1..]);
    }
  }

  lemma {:induction false} LexTotal(a: string, b: string)
    ensures LexLe(a, b) || LexLe(b, a)
    decreases |a|
  {
    if a != [] && b != [] && a[0] == b[0] {
      LexTotal(a[1..], b[1..]);
    }
  }

  lemma {:induction false} LexAntisymmetric(a: string, b: string)
    requires LexLe(a, b) && LexLe(b, a)
    ensures a == b
    decreases |a|
  {
    if a != [] {
      LexAntisymmetric(a[1..], b[1..]);
      assert a == [a[0]] + a[1..] && b == [b[0]] + b[1..];
    }
  }

  lemma {:induction false} LexTransitive(a: string, b: string, c: string)
    requires LexLe(a, b) && LexLe(b, c)
    ensures LexLe(a, c)
    decreases |a|
  {
    if a != [] && a[0] == b[0] && b[0] == c[0] {
      LexTransitive(a[1..], b[1..], c[1..]);
    }
  }

  predicate IsLeast(k: string, s: set<string>) {
    k in s && forall j :: j in s ==> LexLe(k, j)
  }

  /** Every non-empty finite set of strings has a least element. */
  lemma {:induction false} LeastExists(s: set<string>)
    requires s != {}
    ensures exists k :: IsLeast(k, s)
    decreases |s|
  {
    var x :| x in s;
    LexReflexive(x);
    if s != {x} {
      LeastExists(s - {x});
      var m :| IsLeast(m, s - {x});
      LexTotal(x, m);
      if LexLe(x, m) {
        forall j | j in s ensures LexLe(x, j) {
          if j != x {
            LexTransitive(x, m, j);
          }
        }
        assert IsLeast(x, s);
      } else {
        assert IsLeast(m, s);
      }
    } else {
      assert IsLeast(x, s);
    }
  }

  lemma {:induction false} LeastUnique(s: set<string>)
    ensures forall k, k' :: IsLeast(k, s) && IsLeast(k', s) ==> k == k'
  {
    forall k, k' | IsLeast(k, s) && IsLeast(k', s) ensures k == k' {
      LexAntisymmetric(k, k');
    }
  }

  /** The strings of a set in ascending order, each once. */
  function SortedKeys(s: set<string>): (r: seq<string>)
    ensures |r| == |s|
    ensures forall k :: k in r <==> k in s
    ensures forall i, j :: 0 <= i < j < |r| ==> r[i] != r[j] && LexLe(r[i], r[j])
    decreases |s|
  {
    if s == {} then []
    else
      LeastExists(s);
      LeastUnique(s);
      var k :| IsLeast(k, s);
      [k] + SortedKeys(s - {k})
  }
}
