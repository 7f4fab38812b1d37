// The two JavaScript built-ins the registration page applies to the typed age: the global
// isNaN on a string (which converts it with the StringToNumber grammar of section 7.1.4.1.1 of
// ECMA-262) and parseInt without a radix (section 19.2.5 of ECMA-262).  Only what the page
// needs is kept: whether the conversion gives NaN, and the integer parseInt reads, with
// None standing for NaN.
module JsNumbers {
  import opened Wrappers
  import opened Strings

  predicate IsHexDigit(c: char)
  {
    IsAsciiDigit(c) || ('a' <= c <= 'f') || ('A' <= c <= 'F')
  }

  predicate IsOctalDigit(c: char)
  {
    '0' <= c <= '7'
  }

  predicate IsBinaryDigit(c: char)
  {
    c == '0' || c == '1'
  }

  function HexDigitValue(c: char): (v: nat)
    requires IsHexDigit(c)
    ensures v < 16
  {
    if IsAsciiDigit(c) then c as int - '0' as int
    else if 'a' <= c <= 'f' then c as int - 'a' as int + 10
    else c as int - 'A' as int + 10
  }

  /** How many decimal digits `s` starts with. */
  function DigitRun(s: string): (n: nat)
    ensures n <= |s|
    ensures forall i | 0 <= i < n :: IsAsciiDigit(s[i])
    ensures n < |s| ==> !IsAsciiDigit(s[n])
    decreases |s|
  {
    if s != [] && IsAsciiDigit(s[0]) then 1 + DigitRun(s[1..]) else 0
  }

  /** How many hexadecimal digits `s` starts with. */
  function HexRun(s: string): (n: nat)
    ensures n <= |s|
    ensures forall i | 0 <= i < n :: IsHexDigit(s[i])
    ensures n < |s| ==> !IsHexDigit(s[n])
    decreases |s|
  {
    if s != [] && IsHexDigit(s[0]) then 1 + HexRun(s[1..]) else 0
  }

  /** The value of a string of hexadecimal digits. */
  function HexValue(s: string): nat
    requires forall i | 0 <= i < |s| :: IsHexDigit(s[i])
    decreases |s|
  {
    if s == [] then 0 else HexValue(s[..|s| - 1]) * 16 + HexDigitValue(s[|s| - 1])
  }

  // ------------------------------------------------------------ StringToNumber

  /** DecimalDigits: one or more decimal digits. */
  predicate Digits(t: string)
  {
    |t| >= 1 && forall i | 0 <= i < |t| :: IsAsciiDigit(t[i])
  }

  /** SignedInteger: an optional sign and digits. */
  predicate SignedDigits(t: string)
  {
    Digits(t) || (|t| >= 2 && (t[0] == '+' || t[0] == '-') && Digits(t[1..]))
  }

  /** ExponentPart, or nothing. */
  predicate ExponentPart(t: string)
  {
    t == "" || (|t| >= 2 && (t[0] == 'e' || t[0] == 'E') && SignedDigits(t[1..]))
  }

  /** StrUnsignedDecimalLiteral: Infinity, or digits with an optional fraction (one side of
    * the '.' may be empty, not both) and an optional exponent. */
  predicate UnsignedDecimal(t: string)
  {
    t == "Infinity" ||
    var a := DigitRun(t);
    var rest := t[a..];
    if rest != [] && rest[0] == '.' then
      var b := DigitRun(rest[1..]);
      (a > 0 || b > 0) && ExponentPart(rest[1 + b..])
    else a > 0 && ExponentPart(rest)
  }

  /** StrDecimalLiteral: an optional sign and an unsigned literal. */
  predicate DecimalLiteral(t: string)
  {
    UnsignedDecimal(t) || (t != [] && (t[0] == '+' || t[0] == '-') && UnsignedDecimal(t[1..]))
  }

  /** NonDecimalIntegerLiteral: 0x, 0o or 0b followed by digits of that base. */
  predicate NonDecimalInteger(t: string)
  {
    |t| >= 3 && t[0] == '0' &&
    (((t[1] == 'x' || t[1] == 'X') && forall i | 2 <= i < |t| :: IsHexDigit(t[i])) ||
     ((t[1] == 'o' || t[1] == 'O') && forall i | 2 <= i < |t| :: IsOctalDigit(t[i])) ||
     ((t[1] == 'b' || t[1] == 'B') && forall i | 2 <= i < |t| :: IsBinaryDigit(t[i])))
  }

  /** isNaN(s) for a string: its trimmed text is neither empty (which converts to 0) nor a
    * numeric literal. */
  predicate IsNaNString(s: string)
  {
    var t := Trim(s, Js);
    !(t == [] || DecimalLiteral(t) || NonDecimalInteger(t))
  }

  // ------------------------------------------------------------ parseInt

  function Signed(negative: bool, v: nat): int
  {
    if negative then -(v as int) else v
  }

  /** parseInt(s) without a radix: leading white space and one sign are skipped, a 0x or 0X
    * prefix selects base 16, and the longest run of digits of the base is read; no digit
    * at all gives NaN (None). */
  function ParseInt(s: string): Option<int>
  {
    var t := TrimStart(s, Js);
    var negative := t != [] && t[0] == '-';
    var u := if t != [] && (t[0] == '+' || t[0] == '-') then t[1..] else t;
    if |u| >= 2 && u[0] == '0' && (u[1] == 'x' || u[1] == 'X') then
      var h := HexRun(u[2..]);
      if h == 0 then None else Some(Signed(negative, HexValue(u[2..][..h])))
    else
      var d := DigitRun(u);
      if d == 0 then None else Some(Signed(negative, DigitsValue(u[..d])))
  }

  // ------------------------------------------------------------ decimal spellings

  lemma DigitRunAll(s: string)
    requires forall i | 0 <= i < |s| :: IsAsciiDigit(s[i])
    ensures DigitRun(s) == |s|
  {
  }

  /** The decimal spelling of a positive number is a number, and parseInt reads it back. */
  lemma SpellingReadsBack(n: nat)
    requires n >= 1
    ensures !IsNaNString(NatToString(n)) && ParseInt(NatToString(n)) == Some(n)
  {
    var s := NatToString(n);
    SpellingIsNumber(s);
    SpellingParses(s);
    DigitsValueOfNatToString(n);
  }

  lemma SpellingIsNumber(s: string)
    requires Digits(s)
    ensures !IsNaNString(s)
  {
    assert !IsJsSpace(s[0]) && !IsJsSpace(s[|s| - 1]);
    TrimOfTrimmed(s, Js);
    DigitRunAll(s);
    assert s[|s|..] == "";
  }

  lemma SpellingParses(s: string)
    requires Digits(s) && (|s| > 1 ==> s[0] != '0')
    ensures ParseInt(s) == Some(DigitsValue(s))
  {
    assert LeadingBlank(s, Js) == 0;
    assert TrimStart(s, Js) == s;
    DigitRunAll(s);
    assert s[..|s|] == s;
  }
}
