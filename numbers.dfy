/** The part of Java's Double.parseDouble that the report tool relies on:
    decimal numbers with an optional sign, an optional fraction and an optional
    exponent, read exactly as real numbers (no IEEE-754 rounding). */
module Numbers {
  import opened Wrappers

  predicate IsDigit(c: char) {
    '0' <= c <= '9'
  }

  predicate AllDigits(s: string) {
    forall i :: 0 <= i < |s| ==> IsDigit(s[i])
  }

  /** The value of a string of decimal digits, most significant digit first. */
  function DigitsValue(s: string): nat
    requires AllDigits(s)
  {
    if |s| == 0 then 0 else 10 * DigitsValue(s[..|s| - 1]) + (s[|s| - 1] as int - '0' as int)
  }

  function Pow10(n: nat): (r: nat)
    ensures r >= 1
  {
    if n == 0 then 1 else 10 * Pow10(n - 1)
  }

  /** m * 10^e for an integer exponent e. */
  function Scale(m: real, e: int): real {
    if e >= 0 then m * Pow10(e) as real else m / Pow10(-e) as real
  }

  /** The index of the first occurrence of a or b in s, or |s| when there is none. */
  function Find(s: string, a: char, b: char): (k: nat)
    ensures k <= |s|
    ensures forall i :: 0 <= i < k ==> s[i] != a && s[i] != b
    ensures k < |s| ==> s[k] == a || s[k] == b
  {
    if |s| == 0 then 0 else if s[0] == a || s[0] == b then 0 else 1 + Find(s[1..], a, b)
  }

  /** An exponent: an optional sign followed by at least one digit. */
  function ParseExponent(s: string): Option<int> {
    var negative := |s| > 0 && s[0] == '-';
    var digits := if |s| > 0 && (s[0] == '+' || s[0] == '-') then s[1..] else s;
    if |digits| == 0 || !AllDigits(digits) then None
    else Some(if negative then -(DigitsValue(digits) as int) else DigitsValue(digits))
  }

  /** A number without its sign: digits, an optional '.' and digits (at least
      one digit in all), then optionally 'e' or 'E' and an exponent. */
  function ParseUnsigned(s: string): Option<real> {
    var e := Find(s, 'e', 'E');
    var mantissa := s[..e];
    var point := Find(mantissa, '.', '.');
    var whole := mantissa[..point];
    var fraction := if point < |mantissa| then mantissa[point + 1..] else "";
    var exponent := if e < |s| then ParseExponent(s[e + 1..]) else Some(0);
    if !AllDigits(whole) || !AllDigits(fraction) || |whole| + |fraction| == 0 || exponent.None? then None
    else Some(Scale(DigitsValue(whole) as real + DigitsValue(fraction) as real / Pow10(|fraction|) as real,
                    exponent.value))
  }

  lemma ScaleWhole(x: nat)
    ensures Scale(x as real + DigitsValue("") as real / Pow10(0) as real, 0) == x as real
  {
  }

  /** A non-empty string of digits is read as the integer it denotes. */
  lemma ParseUnsignedDigits(s: string, n: nat)
    requires |s| > 0 && AllDigits(s) && DigitsValue(s) == n
    ensures ParseUnsigned(s) == Some(n as real)
  {
    FindInDigits(s, 'e', 'E');
    assert s[..|s|] == s;
    FindInDigits(s, '.', '.');
    ScaleWhole(n);
  }

  lemma DigitsParse(s: string)
    ensures |s| > 0 && AllDigits(s) ==> IsDigit(s[0]) && ParseUnsigned(s) == Some(DigitsValue(s) as real)
  {
    if |s| > 0 && AllDigits(s) {
      ParseUnsignedDigits(s, DigitsValue(s));
    }
  }

  /** Double.parseDouble: None stands for the NumberFormatException it throws,
      among others on an empty cell. */
  function ParseDouble(s: string): (r: Option<real>)
    ensures |s| == 0 ==> r.None?
    ensures |s| > 0 && AllDigits(s) ==> r == Some(DigitsValue(s) as real)
  {
    DigitsParse(s);
    var negative := |s| > 0 && s[0] == '-';
    var body := if |s| > 0 && (s[0] == '+' || s[0] == '-') then s[1..] else s;
    match ParseUnsigned(body)
    case None => None
    case Some(x) => Some(if negative then -x else x)
  }

  /** The test the report tool makes on the first data row of a column. */
  predicate IsNumeric(s: string) {
    ParseDouble(s).Some?
  }

  /** The decimal representation of a natural number, as a CSV field holds it. */
  function NatToString(n: nat): string {
    if n < 10 then [('0' as int + n) as char]
    else NatToString(n / 10) + [('0' as int + n % 10) as char]
  }

  lemma {:induction false} NatToStringValue(n: nat)
    ensures |NatToString(n)| >= 1
    ensures AllDigits(NatToString(n))
    ensures DigitsValue(NatToString(n)) == n
  {
    var s := NatToString(n);
    if n >= 10 {
      NatToStringValue(n / 10);
      assert s[..|s| - 1] == NatToString(n / 10);
    }
  }

  /** A string of digits holds no separator that is not a digit. */
  lemma FindInDigits(s: string, a: char, b: char)
    requires AllDigits(s) && !IsDigit(a) && !IsDigit(b)
    ensures Find(s, a, b) == |s|
  {
  }

  /** Every natural number written in decimal parses back to itself. */
  lemma ParseNatToString(n: nat)
    ensures ParseDouble(NatToString(n)) == Some(n as real)
  {
    NatToStringValue(n);
  }

  /** A leading minus sign negates the value and keeps parsability. */
  lemma ParseNegative(s: string)
    requires |s| > 0 && s[0] != '+' && s[0] != '-'
    ensures IsNumeric("-" + s) <==> IsNumeric(s)
    ensures IsNumeric(s) ==> ParseDouble("-" + s).value == -ParseDouble(s).value
  {
    assert ("-" + s)[1..] == s;
  }
}
