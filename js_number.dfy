/** JavaScript's global `parseInt` (with no radix) and the conversion of a
    number to a string, as section 19.2.5 and section 6.1.6.1.20 of ECMA-262
    define them, restricted to the values the download check meets: NaN and
    integers. */
module JsNumber {

  /** A JavaScript number as far as this model needs one. */
  datatype Num = NaN | Int(value: int)

  /** The WhiteSpace and LineTerminator code points of ECMA-262 (sections
      12.2 and 12.3), which `parseInt` skips before the number. */
  predicate IsStrWhiteSpace(c: char) {
    || c == '\t' || c == '\n' || c == '\U{000B}' || c == '\U{000C}' || c == '\r'
    || c == ' ' || c == '\U{00A0}' || c == '\U{1680}' || ('\U{2000}' <= c <= '\U{200A}')
    || c == '\U{2028}' || c == '\U{2029}' || c == '\U{202F}' || c == '\U{205F}'
    || c == '\U{3000}' || c == '\U{FEFF}'
  }

  /** The string with its leading white space removed. */
  function TrimStart(s: string): (r: string)
    ensures |r| <= |s| && r == s[|s| - |r|..]
    ensures forall i :: 0 <= i < |s| - |r| ==> IsStrWhiteSpace(s[i])
    ensures |r| > 0 ==> !IsStrWhiteSpace(r[0])
    decreases |s|
  {
    if |s| > 0 && IsStrWhiteSpace(s[0]) then TrimStart(s[1..]) else s
  }

  /** The value of a digit in radix up to 36; 36 for anything else. */
  function DigitValue(c: char): nat {
    if '0' <= c <= '9' then c as int - '0' as int
    else if 'a' <= c <= 'z' then c as int - 'a' as int + 10
    else if 'A' <= c <= 'Z' then c as int - 'A' as int + 10
    else 36
  }

  predicate IsDigit(c: char, radix: nat) {
    DigitValue(c) < radix
  }

  /** The length of the longest prefix of `s` made of radix-`radix` digits. */
  function DigitPrefixLength(s: string, radix: nat): (n: nat)
    ensures n <= |s|
    ensures forall i :: 0 <= i < n ==> IsDigit(s[i], radix)
    ensures n < |s| ==> !IsDigit(s[n], radix)
    decreases |s|
  {
    if |s| > 0 && IsDigit(s[0], radix) then 1 + DigitPrefixLength(s[1..], radix) else 0
  }

  /** The mathematical value of a digit string, most significant digit first. */
  function DigitsValue(ds: string, radix: nat): int
    decreases |ds|
  {
    if |ds| == 0 then 0 else DigitsValue(ds[..|ds| - 1], radix) * radix + DigitValue(ds[|ds| - 1])
  }

  /** `parseInt(s)`: skip white space, take an optional sign, switch to radix
      16 after a `0x` or `0X` prefix, and read the longest digit prefix; NaN
      when there is none. Trailing characters are ignored. */
  function ParseInt(s: string): Num {
    ParseSigned(TrimStart(s))
  }

  /** `parseInt` after the white space: an optional sign, then the magnitude. */
  function ParseSigned(t: string): Num {
    if |t| > 0 && t[0] == '-' then Negate(ParseMagnitude(t[1..]))
    else if |t| > 0 && t[0] == '+' then ParseMagnitude(t[1..])
    else ParseMagnitude(t)
  }

  function Negate(x: Num): Num {
    match x
    case NaN => NaN
    case Int(v) => Int(-v)
  }

  /** The digits after the sign: hexadecimal after `0x` or `0X`, else decimal. */
  function ParseMagnitude(u: string): Num {
    if |u| >= 2 && u[0] == '0' && (u[1] == 'x' || u[1] == 'X') then ParseDigits(u[2..], 16)
    else ParseDigits(u, 10)
  }

  /** The value of the longest digit prefix, or NaN when it is empty. */
  function ParseDigits(z: string, radix: nat): Num {
    var n := DigitPrefixLength(z, radix);
    if n == 0 then NaN else Int(DigitsValue(z[..n], radix))
  }

  function DigitChar(d: nat): (c: char)
    requires d < 10
    ensures '0' <= c <= '9' && DigitValue(c) == d
  {
    ('0' as int + d) as char
  }

  /** The canonical decimal numeral of a natural number: digits only, at
      least one, and no leading zero. */
  function DecimalDigits(n: nat): (r: string)
    ensures |r| >= 1
    ensures forall i :: 0 <= i < |r| ==> '0' <= r[i] <= '9'
    ensures n > 0 ==> r[0] != '0'
    decreases n
  {
    if n < 10 then [DigitChar(n)] else DecimalDigits(n / 10) + [DigitChar(n % 10)]
  }

  /** `Number::toString` for the numbers of this model. */
  function NumberToString(x: Num): string {
    match x
    case NaN => "NaN"
    case Int(v) => if v < 0 then "-" + DecimalDigits(-v) else DecimalDigits(v)
  }

  /** Reading back the decimal numeral of `n` gives `n`. */
  lemma {:induction false} DigitsValueOfDecimal(n: nat)
    ensures DigitsValue(DecimalDigits(n), 10) == n
    decreases n
  {
    var s := DecimalDigits(n);
    if n < 10 {
      assert s[..|s| - 1] == [];
    } else {
      DigitsValueOfDecimal(n / 10);
      assert s[..|s| - 1] == DecimalDigits(n / 10);
    }
  }

  /** A string not starting with white space is left as it is. */
  lemma TrimStartKeeps(s: string)
    requires |s| > 0 && !IsStrWhiteSpace(s[0])
    ensures TrimStart(s) == s
  {
  }

  /** A string starting with a decimal digit is read as a magnitude, with no
      sign and no hexadecimal prefix involved. */
  lemma ParseIntOfDigitStart(s: string)
    requires |s| > 0 && '0' <= s[0] <= '9'
    requires s[0] == '0' && |s| >= 2 ==> s[1] != 'x' && s[1] != 'X'
    ensures ParseInt(s) == ParseDigits(s, 10)
  {
    TrimStartKeeps(s);
    assert ParseSigned(s) == ParseMagnitude(s);
    assert ParseMagnitude(s) == ParseDigits(s, 10);
  }

  /** `parseInt` inverts the decimal rendering of a natural number, as a
      well-formed `Content-Length` header carries it. */
  lemma ParseIntOfDecimal(n: nat)
    ensures ParseInt(DecimalDigits(n)) == Int(n)
  {
    var s := DecimalDigits(n);
    ParseIntOfDigitStart(s);
    assert DigitPrefixLength(s, 10) == |s| by {
      assert forall i :: 0 <= i < |s| ==> IsDigit(s[i], 10);
    }
    assert s[..|s|] == s;
    DigitsValueOfDecimal(n);
  }

  /** `parseInt` reads the same number past trailing text, such as a unit,
      unless the text turns a lone `0` into a `0x` prefix. */
  lemma ParseIntIgnoresSuffix(n: nat, suffix: string)
    requires |suffix| > 0 && !IsDigit(suffix[0], 10)
    requires n > 0 || (suffix[0] != 'x' && suffix[0] != 'X')
    ensures ParseInt(DecimalDigits(n) + suffix) == Int(n)
  {
    var d := DecimalDigits(n);
    var s := d + suffix;
    assert s[0] == d[0];
    assert s[1] == if |d| >= 2 then d[1] else suffix[0];
    ParseIntOfDigitStart(s);
    assert s[|d|] == suffix[0];
    assert DigitPrefixLength(s, 10) == |d| by {
      assert forall i :: 0 <= i < |d| ==> IsDigit(s[i], 10);
    }
    assert s[..|d|] == d;
    DigitsValueOfDecimal(n);
  }

  /** A string with no digit where the number should start parses to NaN. */
  lemma ParseIntNaN(s: string)
    requires var t := TrimStart(s); |t| == 0 || (!IsDigit(t[0], 10) && t[0] != '+' && t[0] != '-')
    ensures ParseInt(s) == NaN
  {
  }
}
