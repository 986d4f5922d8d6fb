/** The string operations the pages and query builders rely on: the `\D` digit
    filter, `Number(...)` of a form string, `toString()` of a whole number,
    `startsWith`, and `trim()` with JavaScript's whitespace set. */
module Text {

  predicate IsDigit(c: char) {
    '0' <= c <= '9'
  }

  predicate AllDigits(s: string) {
    forall i :: 0 <= i < |s| ==> IsDigit(s[i])
  }

  function DigitValue(c: char): (d: nat)
    requires IsDigit(c)
    ensures d < 10
  {
    c as int - '0' as int
  }

  function DigitChar(d: nat): (c: char)
    requires d < 10
    ensures IsDigit(c) && DigitValue(c) == d
  {
    ('0' as int + d) as char
  }

  /** `str.replace(/\D/g, "")`: the ASCII digits of `s`, in their order. */
  function DigitsOnly(s: string): (r: string)
    ensures AllDigits(r)
    ensures |r| <= |s|
    ensures forall c :: c in r <==> c in s && IsDigit(c)
    ensures AllDigits(s) ==> r == s
  {
    if s == [] then []
    else
      assert s == [s[0]] + s[1..];
      (if IsDigit(s[0]) then [s[0]] else []) + DigitsOnly(s[1..])
  }

  /** The decimal value of a digit string; the empty string is 0, as `Number("")` is. */
  function DigitsValue(s: string): nat
    requires AllDigits(s)
  {
    if s == [] then 0 else 10 * DigitsValue(s[..|s| - 1]) + DigitValue(s[|s| - 1])
  }

  /** `n.toString()` for a whole number that is not negative. */
  function NatToString(n: nat): (s: string)
    ensures |s| > 0 && AllDigits(s)
  {
    if n < 10 then [DigitChar(n)] else NatToString(n / 10) + [DigitChar(n % 10)]
  }

  /** `n.toString()` for a whole number: a minus sign exactly for a negative
      number, followed by the decimal digits of its magnitude. */
  function IntToString(n: int): (r: string)
    ensures |r| > 0 && (r[0] == '-' <==> n < 0)
    ensures n >= 0 ==> AllDigits(r) && DigitsValue(r) == n
    ensures n < 0 ==> AllDigits(r[1..]) && DigitsValue(r[1..]) == -n
  {
    if n < 0 then
      NatToStringRoundTrip(-n);
      var digits := NatToString(-n);
      assert ("-" + digits)[1..] == digits;
      "-" + digits
    else
      NatToStringRoundTrip(n);
      NatToString(n)
  }

  /** A digit string as `toString()` writes it: no leading zero unless it is "0". */
  predicate Canonical(s: string) {
    |s| > 0 && AllDigits(s) && (|s| > 1 ==> s[0] != '0')
  }

  lemma {:induction false} NatToStringRoundTrip(n: nat)
    ensures DigitsValue(NatToString(n)) == n
  {
    if n >= 10 {
      var s, p := NatToString(n), NatToString(n / 10);
      assert s[..|s| - 1] == p;
      NatToStringRoundTrip(n / 10);
    }
  }

  lemma {:induction false} PositiveHasNoLeadingZero(n: nat)
    requires n > 0
    ensures NatToString(n)[0] != '0'
  {
    if n >= 10 {
      PositiveHasNoLeadingZero(n / 10);
    }
  }

  lemma NatToStringCanonical(n: nat)
    ensures Canonical(NatToString(n))
  {
    if n > 0 {
      PositiveHasNoLeadingZero(n);
    }
  }

  lemma {:induction false} LeadingDigitBound(s: string)
    requires |s| > 0 && AllDigits(s)
    ensures DigitsValue(s) >= DigitValue(s[0])
    decreases |s|
  {
    if |s| > 1 {
      var p := s[..|s| - 1];
      assert p[0] == s[0];
      LeadingDigitBound(p);
    }
  }

  /** Reading a canonical digit string and writing the number back gives the string. */
  lemma {:induction false} CanonicalRoundTrip(s: string)
    requires Canonical(s)
    ensures NatToString(DigitsValue(s)) == s
    decreases |s|
  {
    var last := s[|s| - 1];
    if |s| == 1 {
      assert s == [last];
    } else {
      var p := s[..|s| - 1];
      assert p[0] == s[0];
      CanonicalRoundTrip(p);
      LeadingDigitBound(p);
      var n := DigitsValue(s);
      assert n == 10 * DigitsValue(p) + DigitValue(last);
      assert n / 10 == DigitsValue(p) && n % 10 == DigitValue(last);
      assert DigitChar(n % 10) == last;
      assert s == p + [last];
    }
  }

  predicate StartsWith(s: string, prefix: string) {
    |prefix| <= |s| && s[..|prefix|] == prefix
  }

  /** ECMAScript WhiteSpace and LineTerminator code points, which `trim()` removes. */
  predicate IsJsSpace(c: char) {
    c == '\t' || c == '\n' || c == '\U{000B}' || c == '\U{000C}' || c == '\r'
    || c == ' ' || c == '\U{00A0}' || c == '\U{1680}' || ('\U{2000}' <= c <= '\U{200A}')
    || c == '\U{2028}' || c == '\U{2029}' || c == '\U{202F}' || c == '\U{205F}'
    || c == '\U{3000}' || c == '\U{FEFF}'
  }

  function TrimStart(s: string): (r: string)
    ensures |r| <= |s| && r == s[|s| - |r|..]
    ensures r == [] || !IsJsSpace(r[0])
    ensures forall i :: 0 <= i < |s| - |r| ==> IsJsSpace(s[i])
  {
    if s != [] && IsJsSpace(s[0]) then TrimStart(s[1..]) else s
  }

  function TrimEnd(s: string): (r: string)
    ensures |r| <= |s| && r == s[..|r|]
    ensures r == [] || !IsJsSpace(r[|r| - 1])
    ensures forall i :: |r| <= i < |s| ==> IsJsSpace(s[i])
  {
    if s != [] && IsJsSpace(s[|s| - 1]) then TrimEnd(s[..|s| - 1]) else s
  }

  /** `s.trim()`: no longer than `s`, and empty exactly for the strings made
      only of whitespace, which is when `!s.trim()` holds. */
  function Trim(s: string): (r: string)
    ensures |r| <= |s|
    ensures r == "" <==> IsBlank(s)
  {
    TrimEnd(TrimStart(s))
  }

  predicate IsBlank(s: string) {
    forall i :: 0 <= i < |s| ==> IsJsSpace(s[i])
  }

  /** What is left after trimming neither starts nor ends with whitespace. */
  lemma TrimLeavesNoOuterSpace(s: string)
    ensures Trim(s) == "" || (!IsJsSpace(Trim(s)[0]) && !IsJsSpace(Trim(s)[|Trim(s)| - 1]))
  {
  }

  /** A string without whitespace is its own trim. */
  lemma TrimWithoutSpace(s: string)
    requires forall i :: 0 <= i < |s| ==> !IsJsSpace(s[i])
    ensures Trim(s) == s
  {
  }

  lemma TrimOfDigits(s: string)
    ensures AllDigits(s) ==> Trim(s) == s
  {
    if AllDigits(s) {
      TrimWithoutSpace(s);
    }
  }

  /** A JavaScript number as the forms produce it: `NaN`, a whole number, or a
      finite number with a fractional part, kept as its `toString()` text. */
  datatype JsNumber = NaN | Finite(value: int) | Fraction(text: string) {
    /** `0` and `NaN` are falsy; a number with a fractional part is never 0. */
    predicate IsTruthy() {
      (Finite? && value != 0) || Fraction?
    }
  }

  /** Text for a whole number: digits, possibly after a minus sign. */
  predicate IsWholeNumberText(t: string) {
    (AllDigits(t) && t != "") || (|t| > 1 && t[0] == '-' && AllDigits(t[1..]))
  }

  /** `Number(s)` for the text of a number field. Blank text is 0, and a whole
      number (after trimming) is its value. For other text, such as a decimal
      fraction or an exponent, the value is the parameter `otherwise`. */
  function NumberOf(s: string, otherwise: JsNumber): (r: JsNumber)
    ensures IsBlank(s) ==> r == Finite(0)
    ensures AllDigits(s) && s != "" ==> r == Finite(DigitsValue(s))
    ensures |s| > 1 && s[0] == '-' && AllDigits(s[1..]) ==> r == Finite(-(DigitsValue(s[1..]) as int))
    ensures AllDigits(Trim(s)) && Trim(s) != "" ==> r == Finite(DigitsValue(Trim(s)))
    ensures |Trim(s)| > 1 && Trim(s)[0] == '-' && AllDigits(Trim(s)[1..]) ==>
              r == Finite(-(DigitsValue(Trim(s)[1..]) as int))
    ensures !IsBlank(s) && !IsWholeNumberText(Trim(s)) ==> r == otherwise
  {
    TrimOfDigits(s);
    TrimOfSigned(s);
    WholeNumberOf(Trim(s), otherwise)
  }

  /** `Number(t)` for text that is already trimmed. */
  function WholeNumberOf(t: string, otherwise: JsNumber): (r: JsNumber)
    ensures t == "" ==> r == Finite(0)
    ensures AllDigits(t) && t != "" ==> r == Finite(DigitsValue(t))
    ensures |t| > 1 && t[0] == '-' && AllDigits(t[1..]) ==> r == Finite(-(DigitsValue(t[1..]) as int))
    ensures t != "" && !IsWholeNumberText(t) ==> r == otherwise
  {
    if t == "" then Finite(0)
    else if AllDigits(t) then Finite(DigitsValue(t))
    else if |t| > 1 && t[0] == '-' && AllDigits(t[1..]) then Finite(-(DigitsValue(t[1..]) as int))
    else otherwise
  }

  /** A minus sign followed by digits is its own trim. */
  lemma TrimOfSigned(s: string)
    ensures |s| > 1 && s[0] == '-' && AllDigits(s[1..]) ==> Trim(s) == s
  {
    if |s| > 1 && s[0] == '-' && AllDigits(s[1..]) {
      forall i | 0 <= i < |s|
        ensures !IsJsSpace(s[i])
      {
        if i > 0 {
          assert s[i] == s[1..][i - 1];
        }
      }
      TrimWithoutSpace(s);
    }
  }
}
