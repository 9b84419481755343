/**
 * The JavaScript text primitives the pages and controllers rely on: the `\s`
 * and `\d` character classes, `parseInt` without a radix (whose NaN is
 * `None`), and the decimal rendering of a whole number by a template literal.
 */
module JsText {
  import opened Wrappers

  /** The `\s` class: white space and line terminators. */
  predicate IsSpace(c: char) {
    c == ' ' || c == '\t' || c == '\n' || c == '\r' || c == '\U{000B}' || c == '\U{000C}'
    || c == '\U{00A0}' || c == '\U{1680}' || ('\U{2000}' <= c <= '\U{200A}')
    || c == '\U{2028}' || c == '\U{2029}' || c == '\U{202F}' || c == '\U{205F}'
    || c == '\U{3000}' || c == '\U{FEFF}'
  }

  /** The `\d` class: ASCII digits only. */
  predicate IsDigit(c: char) { '0' <= c <= '9' }

  predicate IsHexDigit(c: char) {
    IsDigit(c) || 'a' <= c <= 'f' || 'A' <= c <= 'F'
  }

  predicate AllDigits(s: string) {
    forall i :: 0 <= i < |s| ==> IsDigit(s[i])
  }

  /** `s` without its leading white space. */
  function TrimStart(s: string): (r: string)
    ensures |r| <= |s| && r == s[|s| - |r|..]
    ensures r != [] ==> !IsSpace(r[0])
  {
    if s != [] && IsSpace(s[0]) then TrimStart(s[1..]) else s
  }

  /** `s.replace(/\s/g, '')`. */
  function StripSpaces(s: string): (r: string)
    ensures |r| <= |s|
    ensures forall i :: 0 <= i < |r| ==> !IsSpace(r[i])
  {
    if s == [] then []
    else if IsSpace(s[0]) then StripSpaces(s[1..])
    else [s[0]] + StripSpaces(s[1..])
  }

  /** `s.replace(/\D/g, '')`. */
  function Digits(s: string): (r: string)
    ensures |r| <= |s| && AllDigits(r)
  {
    if s == [] then []
    else if IsDigit(s[0]) then [s[0]] + Digits(s[1..])
    else Digits(s[1..])
  }

  /** The longest prefix of `s` all of whose characters satisfy the digit class. */
  function DigitPrefix(s: string): (r: string)
    ensures |r| <= |s| && r == s[..|r|] && AllDigits(r)
    ensures |r| < |s| ==> !IsDigit(s[|r|])
  {
    if s != [] && IsDigit(s[0]) then [s[0]] + DigitPrefix(s[1..]) else []
  }

  function HexPrefix(s: string): (r: string)
    ensures |r| <= |s| && r == s[..|r|]
    ensures forall i :: 0 <= i < |r| ==> IsHexDigit(r[i])
  {
    if s != [] && IsHexDigit(s[0]) then [s[0]] + HexPrefix(s[1..]) else []
  }

  function DigitValue(c: char): (v: nat)
    requires IsDigit(c)
    ensures v < 10
  {
    c as int - '0' as int
  }

  function HexDigitValue(c: char): (v: nat)
    requires IsHexDigit(c)
    ensures v < 16
  {
    if IsDigit(c) then DigitValue(c)
    else if 'a' <= c <= 'f' then c as int - 'a' as int + 10
    else c as int - 'A' as int + 10
  }

  /** The number a run of decimal digits denotes, most significant first. */
  function DecimalValue(digits: string): nat
    requires AllDigits(digits)
  {
    if digits == [] then 0
    else 10 * DecimalValue(digits[..|digits| - 1]) + DigitValue(digits[|digits| - 1])
  }

  function HexValue(digits: string): nat
    requires forall i :: 0 <= i < |digits| ==> IsHexDigit(digits[i])
  {
    if digits == [] then 0
    else 16 * HexValue(digits[..|digits| - 1]) + HexDigitValue(digits[|digits| - 1])
  }

  /** Whether the text after leading white space starts with a minus sign. */
  predicate Negative(s: string) {
    var t := TrimStart(s);
    t != [] && t[0] == '-'
  }

  /** `s` after leading white space and at most one sign. */
  function Unsigned(s: string): string {
    var t := TrimStart(s);
    if t != [] && (t[0] == '+' || t[0] == '-') then t[1..] else t
  }

  predicate HexPrefixed(u: string) {
    |u| >= 2 && u[0] == '0' && (u[1] == 'x' || u[1] == 'X')
  }

  /**
   * `parseInt(s)` with no radix: white space, a sign, then either `0x`/`0X`
   * and hex digits or decimal digits, as many as there are. `None` is NaN.
   */
  function ParseInt(s: string): (r: Option<int>)
    ensures r.None? <==> (if HexPrefixed(Unsigned(s)) then HexPrefix(Unsigned(s)[2..]) == []
                          else DigitPrefix(Unsigned(s)) == [])
  {
    var u := Unsigned(s);
    var magnitude: Option<nat> :=
      if HexPrefixed(u) then
        (var h := HexPrefix(u[2..]); if h == [] then None else Some(HexValue(h)))
      else
        (var d := DigitPrefix(u); if d == [] then None else Some(DecimalValue(d)));
    match magnitude
    case None => None
    case Some(m) => Some(if Negative(s) then -(m as int) else m)
  }

  /** `${n}` for a whole number `n`: its decimal digits, no leading zero. */
  function ShowNat(n: nat): (r: string)
    ensures r != [] && AllDigits(r)
    ensures |r| > 1 ==> r[0] != '0'
  {
    if n < 10 then [('0' as int + n) as char]
    else ShowNat(n / 10) + [('0' as int + n % 10) as char]
  }

  /** Digits read back give the number that was written. */
  lemma {:induction false} DecimalValueOfShowNat(n: nat)
    ensures DecimalValue(ShowNat(n)) == n
  {
    if n >= 10 {
      var s := ShowNat(n);
      assert s[..|s| - 1] == ShowNat(n / 10);
      DecimalValueOfShowNat(n / 10);
    }
  }

  /** A run of decimal digits parses to the number it denotes. */
  lemma ParseIntOfDigits(s: string)
    requires s != [] && AllDigits(s)
    ensures ParseInt(s) == Some(DecimalValue(s))
  {
    assert TrimStart(s) == s;
    assert Unsigned(s) == s;
    assert DigitPrefix(s) == s;
  }

  /** An id interpolated into a route, `${id}`, comes back unchanged through `parseInt`. */
  lemma ParseIntShowNat(n: nat)
    ensures ParseInt(ShowNat(n)) == Some(n)
  {
    ParseIntOfDigits(ShowNat(n));
    DecimalValueOfShowNat(n);
  }
}
