/** Decimal integer parsing and printing as `Integer.parseInt`, `Long.parseLong`,
    `Integer.toString`, `Long.toString` and Guava's `Ints.tryParse` do it, restricted to the
    ASCII digits. */
module JavaNumbers {
  import opened Wrappers
  import opened JavaText

  const INT_MIN: int := -0x8000_0000
  const INT_MAX: int := 0x7fff_ffff
  const LONG_MIN: int := -0x8000_0000_0000_0000
  const LONG_MAX: int := 0x7fff_ffff_ffff_ffff

  /** A 32-bit `int` result: the value wrapped into the range of `int`. */
  function Int32(x: int): (r: int)
    ensures INT_MIN <= r <= INT_MAX
    ensures (r - x) % 0x1_0000_0000 == 0
    ensures INT_MIN <= x <= INT_MAX ==> r == x
  {
    (x - INT_MIN) % 0x1_0000_0000 + INT_MIN
  }

  predicate AllDigits(s: string) {
    forall i :: 0 <= i < |s| ==> IsAsciiDigit(s[i])
  }

  /** The value of a run of decimal digits, most significant first. */
  function DigitsValue(s: string): nat
    requires AllDigits(s)
  {
    if s == [] then 0 else DigitsValue(s[..|s| - 1]) * 10 + (s[|s| - 1] as int - '0' as int)
  }

  /** A decimal number with an optional sign (`+` only when `allowPlus`), kept only when it
      lies in `lo..hi`; anything else is rejected (`None` stands for NumberFormatException or
      Guava's null). */
  function ParseSigned(s: string, allowPlus: bool, lo: int, hi: int): (r: Option<int>)
    ensures r.Some? ==> lo <= r.value <= hi
    ensures s == [] ==> r.None?
  {
    if |s| == 0 then None
    else
      var neg := s[0] == '-';
      var digits := if neg || (allowPlus && s[0] == '+') then s[1..] else s;
      if |digits| == 0 || !AllDigits(digits) then None
      else
        var m: int := DigitsValue(digits);
        var v := if neg then 0 - m else m;
        if lo <= v <= hi then Some(v) else None
  }

  /** `Integer.parseInt` / `Integer.valueOf`. */
  function ParseInt(s: string): Option<int> {
    ParseSigned(s, true, INT_MIN, INT_MAX)
  }

  /** `Long.parseLong` / `Long.valueOf`. */
  function ParseLong(s: string): Option<int> {
    ParseSigned(s, true, LONG_MIN, LONG_MAX)
  }

  /** Guava `Ints.tryParse`: a leading minus sign only. */
  function TryParseInt(s: string): Option<int> {
    ParseSigned(s, false, INT_MIN, INT_MAX)
  }

  function DigitChar(d: nat): (c: char)
    requires d < 10
    ensures IsAsciiDigit(c) && c as int - '0' as int == d
  {
    ('0' as int + d) as char
  }

  /** The decimal digits of `n`, without leading zeros. */
  function DigitsOf(n: nat): (s: string)
    ensures |s| >= 1 && AllDigits(s)
  {
    if n < 10 then [DigitChar(n)] else DigitsOf(n / 10) + [DigitChar(n % 10)]
  }

  /** `Integer.toString` / `Long.toString`. */
  function ToDecimal(i: int): (s: string)
    ensures |s| >= 1
  {
    if i < 0 then "-" + DigitsOf(-i) else DigitsOf(i)
  }

  lemma {:induction false} DigitsRoundTrip(n: nat)
    ensures DigitsValue(DigitsOf(n)) == n
  {
    if n >= 10 {
      DigitsRoundTrip(n / 10);
      var s := DigitsOf(n);
      assert s[..|s| - 1] == DigitsOf(n / 10);
    }
  }

  /** Printing a value in range and parsing it back gives the value again. */
  lemma ToDecimalRoundTrip(i: int, allowPlus: bool, lo: int, hi: int)
    requires lo <= i <= hi
    ensures ParseSigned(ToDecimal(i), allowPlus, lo, hi) == Some(i)
  {
    var n: nat := if i < 0 then -i else i;
    DigitsRoundTrip(n);
    var s := ToDecimal(i);
    if i < 0 {
      assert s[0] == '-' && s[1..] == DigitsOf(n);
      assert DigitsValue(s[1..]) == n;
    } else {
      var d := DigitsOf(n);
      assert s == d && IsAsciiDigit(d[0]);
      assert s[0] != '-' && s[0] != '+';
    }
  }

  /** The value a sign and a run of digits stand for. */
  function SignedValue(neg: bool, digits: string): int
    requires AllDigits(digits)
  {
    if neg then 0 - DigitsValue(digits) else DigitsValue(digits)
  }

  /** A text made of an accepted sign (none, a minus, or a plus when allowed) and at least one
      digit parses to its signed value when that is in range, and is rejected otherwise. */
  lemma SignedDigitsRule(sign: string, digits: string, allowPlus: bool, lo: int, hi: int)
    requires sign == "" || sign == "-" || (allowPlus && sign == "+")
    requires |digits| >= 1 && AllDigits(digits)
    ensures var v := SignedValue(sign == "-", digits);
      ParseSigned(sign + digits, allowPlus, lo, hi) == if lo <= v <= hi then Some(v) else None
  {
    var s := sign + digits;
    if sign == "" {
      assert s == digits && IsAsciiDigit(digits[0]);
    } else {
      assert s[0] == sign[0] && s[1..] == digits;
    }
  }

  /** A text with a character after its first that is not a digit is rejected, and so is one
      whose first character is neither a digit nor an accepted sign. */
  lemma NonDigitRejected(s: string, allowPlus: bool, lo: int, hi: int)
    requires (exists k :: 1 <= k < |s| && !IsAsciiDigit(s[k])) ||
             (|s| >= 1 && !IsAsciiDigit(s[0]) && s[0] != '-' && !(allowPlus && s[0] == '+'))
    ensures ParseSigned(s, allowPlus, lo, hi).None?
  {
    if |s| >= 1 && (s[0] == '-' || (allowPlus && s[0] == '+')) {
      var k :| 1 <= k < |s| && !IsAsciiDigit(s[k]);
      assert !IsAsciiDigit(s[1..][k - 1]);
    } else if |s| >= 1 && IsAsciiDigit(s[0]) {
      var k :| 1 <= k < |s| && !IsAsciiDigit(s[k]);
      assert !AllDigits(s);
    }
  }

  /** Leading zeros do not change the value of a run of digits. */
  lemma {:induction false} LeadingZero(digits: string)
    requires AllDigits(digits)
    ensures AllDigits("0" + digits) && DigitsValue("0" + digits) == DigitsValue(digits)
  {
    if digits != [] {
      var init := digits[..|digits| - 1];
      LeadingZero(init);
      assert ("0" + digits)[..|"0" + digits| - 1] == "0" + init;
    }
  }
}
