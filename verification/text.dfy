/**
 * Strings as the site's TypeScript sees them: ASCII case folding, `includes`,
 * `startsWith`, `trim`, the `||` fallback on strings, `Number`, `parseInt`
 * and decimal rendering of non-negative integers.
 */
module Text {
  import opened Optional

  /** `toLowerCase` on one character, restricted to the ASCII letters. */
  function LowerChar(c: char): char
  {
    if 'A' <= c <= 'Z' then (c as int + 32) as char else c
  }

  function Lower(s: string): (r: string)
    ensures |r| == |s|
    ensures forall i :: 0 <= i < |s| ==> r[i] == LowerChar(s[i])
  {
    seq(|s|, i requires 0 <= i < |s| => LowerChar(s[i]))
  }

  /** `s.startsWith(p)`. */
  predicate StartsWith(s: string, p: string)
  {
    |p| <= |s| && s[..|p|] == p
  }

  /** `s.includes(pat)`: `pat` occurs at some position of `s`. */
  predicate Contains(s: string, pat: string)
    decreases |s|
  {
    StartsWith(s, pat) || (s != [] && Contains(s[1..], pat))
  }

  /** `s.toLowerCase().includes(q.toLowerCase())`, the search test every page uses. */
  predicate ContainsIgnoreCase(s: string, q: string)
  {
    Contains(Lower(s), Lower(q))
  }

  lemma ContainsEmpty(s: string)
    ensures Contains(s, "")
  {
  }

  lemma {:induction false} ContainsLonger(s: string, pat: string)
    requires |s| < |pat|
    ensures !Contains(s, pat)
    decreases |s|
  {
    if s != [] {
      ContainsLonger(s[1..], pat);
    }
  }

  /** Every query matches when it is empty, whatever the text. */
  lemma EmptyQueryMatches(s: string)
    ensures ContainsIgnoreCase(s, "")
  {
    ContainsEmpty(Lower(s));
  }

  /** The JavaScript `WhiteSpace` and `LineTerminator` characters that `trim` removes. */
  predicate IsJsSpace(c: char)
  {
    c == '\t' || c == '\n' || c == '\U{B}' || c == '\U{C}' || c == '\r' || c == ' ' ||
    c == '\U{A0}' || c == '\U{1680}' || ('\U{2000}' <= c <= '\U{200A}') ||
    c == '\U{2028}' || c == '\U{2029}' || c == '\U{202F}' || c == '\U{205F}' ||
    c == '\U{3000}' || c == '\U{FEFF}'
  }

  function TrimStart(s: string): string
  {
    if s != [] && IsJsSpace(s[0]) then TrimStart(s[1..]) else s
  }

  function TrimEnd(s: string): string
  {
    if s != [] && IsJsSpace(s[|s| - 1]) then TrimEnd(s[..|s| - 1]) else s
  }

  /** `s.trim()`. */
  function Trim(s: string): string
  {
    TrimEnd(TrimStart(s))
  }

  /** Every character of `s` is white space. */
  predicate IsBlank(s: string)
  {
    forall i :: 0 <= i < |s| ==> IsJsSpace(s[i])
  }

  lemma {:induction false} TrimStartEmptyIffBlank(s: string)
    ensures TrimStart(s) == [] <==> IsBlank(s)
    ensures TrimStart(s) != [] ==> !IsJsSpace(TrimStart(s)[0])
  {
    if s != [] && IsJsSpace(s[0]) {
      TrimStartEmptyIffBlank(s[1..]);
      assert IsBlank(s) <==> IsBlank(s[1..]) by {
        if IsBlank(s[1..]) {
          forall i | 0 <= i < |s| ensures IsJsSpace(s[i]) {
            if i > 0 { assert s[i] == s[1..][i - 1]; }
          }
        }
      }
    }
  }

  lemma {:induction false} TrimEndKeepsHead(s: string)
    requires s != [] && !IsJsSpace(s[0])
    ensures TrimEnd(s) != []
    decreases |s|
  {
    if IsJsSpace(s[|s| - 1]) {
      TrimEndKeepsHead(s[..|s| - 1]);
    }
  }

  /** `!s.trim()` holds exactly when `s` is made of white space only. */
  lemma TrimEmptyIffBlank(s: string)
    ensures Trim(s) == "" <==> IsBlank(s)
  {
    TrimStartEmptyIffBlank(s);
    if TrimStart(s) != [] {
      TrimEndKeepsHead(TrimStart(s));
    }
  }

  /** A string operand of `||` is falsy when it is missing or empty. */
  predicate Truthy(o: Option<string>)
  {
    o.Some? && o.value != ""
  }

  /** `o || fallback` for a string operand. */
  function OrElse(o: Option<string>, fallback: string): (r: string)
    ensures Truthy(o) ==> r == o.value
    ensures !Truthy(o) ==> r == fallback
  {
    if Truthy(o) then o.value else fallback
  }

  predicate IsDigit(c: char)
  {
    '0' <= c <= '9'
  }

  predicate AllDigits(s: string)
  {
    forall i :: 0 <= i < |s| ==> IsDigit(s[i])
  }

  function DigitValue(c: char): (d: nat)
    requires IsDigit(c)
    ensures d < 10
  {
    c as int - '0' as int
  }

  function DigitChar(d: nat): (c: char)
    requires d < 10
    ensures IsDigit(c) && DigitValue(c) == d
  {
    ('0' as int + d) as char
  }

  /** The value of a string of decimal digits; the empty string is 0. */
  function DigitsValue(s: string): nat
    requires AllDigits(s)
  {
    if s == [] then 0 else 10 * DigitsValue(s[..|s| - 1]) + DigitValue(s[|s| - 1])
  }

  /** `n.toString()` for a non-negative integer. */
  function NatToString(n: nat): (r: string)
    ensures r != [] && AllDigits(r)
  {
    if n < 10 then [DigitChar(n)] else NatToString(n / 10) + [DigitChar(n % 10)]
  }

  /** Reading back the decimal rendering of `n` gives `n`. */
  lemma {:induction false} NatToStringRoundTrip(n: nat)
    ensures DigitsValue(NatToString(n)) == n
  {
    if n >= 10 {
      NatToStringRoundTrip(n / 10);
      var s := NatToString(n);
      assert s[..|s| - 1] == NatToString(n / 10);
    }
  }

  lemma NatToStringInjective(m: nat, n: nat)
    ensures NatToString(m) == NatToString(n) ==> m == n
  {
    NatToStringRoundTrip(m);
    NatToStringRoundTrip(n);
  }

  /** The numbers a JavaScript `Number` takes in this model: non-negative integers and NaN. */
  datatype JsNumber = Num(value: nat) | NaN

  /**
   * `Number(s)`: a string of decimal digits reads as its value (the empty
   * string as 0), anything else as NaN.
   */
  function ToNumber(s: string): (r: JsNumber)
    ensures r.Num? <==> AllDigits(s)
    ensures r.Num? ==> r.value == DigitsValue(s)
  {
    if AllDigits(s) then Num(DigitsValue(s)) else NaN
  }

  /** The longest prefix of `s` made of decimal digits. */
  function LeadingDigits(s: string): (r: string)
    ensures AllDigits(r) && |r| <= |s| && r == s[..|r|]
    ensures |r| < |s| ==> !IsDigit(s[|r|])
  {
    if s != [] && IsDigit(s[0]) then [s[0]] + LeadingDigits(s[1..]) else []
  }

  /** `parseInt(s)`: the value of the leading digits, NaN when there are none. */
  function ParseInt(s: string): (r: JsNumber)
    ensures r.Num? <==> (s != [] && IsDigit(s[0]))
  {
    var d := LeadingDigits(s);
    if d == [] then NaN else Num(DigitsValue(d))
  }

  /** String conversion of a number: its digits, or "NaN". */
  function NumberToString(x: JsNumber): string
  {
    match x
    case Num(n) => NatToString(n)
    case NaN => "NaN"
  }

  lemma {:induction false} LeadingDigitsOfDigitsThen(d: string, t: string)
    requires AllDigits(d)
    requires t == [] || !IsDigit(t[0])
    ensures LeadingDigits(d + t) == d
    decreases |d|
  {
    if d != [] {
      LeadingDigitsOfDigitsThen(d[1..], t);
      assert (d + t)[1..] == d[1..] + t;
    } else {
      assert d + t == t;
    }
  }

  /** `parseInt` reads back the decimal rendering of `n`, whatever non-digit text follows it. */
  lemma ParseIntRoundTrip(n: nat, t: string)
    requires t == [] || !IsDigit(t[0])
    ensures ParseInt(NatToString(n) + t) == Num(n)
  {
    LeadingDigitsOfDigitsThen(NatToString(n), t);
    NatToStringRoundTrip(n);
  }

  /** `Number` reads back the decimal rendering of `n`. */
  lemma ToNumberRoundTrip(n: nat)
    ensures ToNumber(NatToString(n)) == Num(n)
  {
    NatToStringRoundTrip(n);
  }
}
