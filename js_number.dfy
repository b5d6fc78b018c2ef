/**
 * The two number helpers `rateLimiting` relies on: the global `parseInt`
 * (section 19.2.5 of ECMAScript 2023, called without a radix) and
 * `defaultNaN` (index.js).
 */
module JsNumber {

  /** What `parseInt` returns: an integer, or NaN. */
  datatype Num = NaN | Int(value: int)

  /** `defaultNaN(num, def)`: `def` when `num` is NaN, `num` otherwise. */
  function DefaultNaN(num: Num, def: int): (r: int)
    ensures num.NaN? ==> r == def
    ensures num.Int? ==> r == num.value
  {
    if num.NaN? then def else num.value
  }

  /** The white space and line terminators `parseInt` skips before the number. */
  predicate IsStrWhiteSpace(c: char)
  {
    c == '\t' || c == '\n' || c == '\U{B}' || c == '\U{C}' || c == '\r' || c == ' ' ||
    c == '\U{A0}' || c == '\U{1680}' || ('\U{2000}' <= c <= '\U{200A}') ||
    c == '\U{2028}' || c == '\U{2029}' || c == '\U{202F}' || c == '\U{205F}' ||
    c == '\U{3000}' || c == '\U{FEFF}'
  }

  predicate IsDecimalDigit(c: char)
  {
    '0' <= c <= '9'
  }

  predicate IsDigit(c: char, hex: bool)
  {
    IsDecimalDigit(c) || (hex && (('a' <= c <= 'f') || ('A' <= c <= 'F')))
  }

  /** The value of a hexadecimal digit; 0 for any other character. */
  function DigitValue(c: char): nat
  {
    if IsDecimalDigit(c) then c as int - '0' as int
    else if 'a' <= c <= 'f' then c as int - 'a' as int + 10
    else if 'A' <= c <= 'F' then c as int - 'A' as int + 10
    else 0
  }

  /** `s` without its leading white space. */
  function TrimStart(s: string): string
  {
    if |s| > 0 && IsStrWhiteSpace(s[0]) then TrimStart(s[1..]) else s
  }

  /** The longest prefix of `s` made of digits of the radix (16 when `hex`, else 10). */
  function DigitPrefix(s: string, hex: bool): string
  {
    if |s| > 0 && IsDigit(s[0], hex) then [s[0]] + DigitPrefix(s[1..], hex) else []
  }

  /** The value of a string of digits, most significant first. */
  function DigitsValue(z: string, hex: bool): nat
    decreases |z|
  {
    if z == [] then 0
    else DigitsValue(z[..|z| - 1], hex) * (if hex then 16 else 10) + DigitValue(z[|z| - 1])
  }

  /**
   * `parseInt(s)`: skip leading white space, take an optional sign, take a
   * `0x`/`0X` prefix as radix 16 (radix 10 otherwise), then read the
   * longest run of digits; NaN when that run is empty.
   */
  function ParseInt(s: string): (n: Num)
{
    var t := TrimStart(s);
    var negative := |t| > 0 && t[0] == '-';
    var u := if |t| > 0 && (t[0] == '-' || t[0] == '+') then t[1..] else t;
    var hex := |u| >= 2 && u[0] == '0' && (u[1] == 'x' || u[1] == 'X');
    var z := DigitPrefix(if hex then u[2..] else u, hex);
    if |z| == 0 then NaN
    else
      var v: int := DigitsValue(z, hex);
      Int(if negative then -v else v)
  }

  function DigitChar(d: nat): (c: char)
    requires d < 10
    ensures IsDecimalDigit(c) && DigitValue(c) == d
  {
    ('0' as int + d) as char
  }

  /** The decimal notation of `n`, as a server writes a rate-limit header. */
  function DecimalString(n: nat): (s: string)
    ensures |s| > 0
    ensures forall k :: 0 <= k < |s| ==> IsDecimalDigit(s[k])
    decreases n
  {
    if n < 10 then [DigitChar(n)] else DecimalString(n / 10) + [DigitChar(n % 10)]
  }

  lemma {:induction false} DigitPrefixOfDigits(s: string, hex: bool)
    requires forall k :: 0 <= k < |s| ==> IsDigit(s[k], hex)
    decreases |s|
    ensures DigitPrefix(s, hex) == s
  {
    if |s| > 0 {
      DigitPrefixOfDigits(s[1..], hex);
    }
  }

  lemma {:induction false} DecimalStringValue(n: nat)
    decreases n
    ensures DigitsValue(DecimalString(n), false) == n
  {
    var s := DecimalString(n);
    if n >= 10 {
      DecimalStringValue(n / 10);
      assert s[..|s| - 1] == DecimalString(n / 10);
    }
  }

  /** `parseInt` reads back the decimal notation of every natural number. */
  lemma ParseIntOfDecimal(n: nat)
    ensures ParseInt(DecimalString(n)) == Int(n)
  {
    var s := DecimalString(n);
    assert !IsStrWhiteSpace(s[0]);
    assert TrimStart(s) == s;
    assert !(|s| >= 2 && s[0] == '0' && (s[1] == 'x' || s[1] == 'X'));
    DigitPrefixOfDigits(s, false);
    DecimalStringValue(n);
  }

  /** A string that, once its leading white space is trimmed, starts with no sign or digit parses as NaN. */
  lemma ParseIntOfNonNumeric(s: string)
    requires var t := TrimStart(s); t == [] || (t[0] != '-' && t[0] != '+' && !IsDecimalDigit(t[0]))
    ensures ParseInt(s) == NaN
  {
  }

  /** `parseInt(undefined)` reads the string "undefined" and gives NaN. */
  lemma ParseIntOfUndefined()
    ensures ParseInt("undefined") == NaN
  {
    var s := "undefined";
    assert s[0] == 'u' && !IsStrWhiteSpace(s[0]);
    assert TrimStart(s) == s;
  }
}
