/// Decimal integer text as Rust's `str::parse` and `Display` treat it: an
/// optional leading '+' (or '-' for signed types), at least one ASCII digit,
/// and a value inside the target type's range.
module RustInts {
  import opened Wrappers

  const U64Max: int := 0xFFFF_FFFF_FFFF_FFFF
  const U128Max: int := 0xFFFF_FFFF_FFFF_FFFF_FFFF_FFFF_FFFF_FFFF
  const I64Min: int := -0x8000_0000_0000_0000
  const I64Max: int := 0x7FFF_FFFF_FFFF_FFFF
  const I32Min: int := -0x8000_0000
  const I32Max: int := 0x7FFF_FFFF
  const I16Min: int := -0x8000
  const I16Max: int := 0x7FFF
  const U16Max: int := 0xFFFF
  /// `usize` on the 64-bit targets the project builds for.
  const UsizeMax: int := U64Max

  type I32 = x: int | I32Min <= x <= I32Max
  type I16 = x: int | I16Min <= x <= I16Max

  /// An `as i32` cast, or an `i32` sum as a release build wraps it: the
  /// value in the `i32` range that agrees with `x` modulo 2^32.
  function AsI32(x: int): (r: I32)
    ensures I32Min <= x <= I32Max ==> r == x
  {
    (x - I32Min) % 0x1_0000_0000 + I32Min
  }

  /// The wrapped value differs from `x` by a multiple of 2^32.
  lemma AsI32Wraps(x: int)
    ensures (x - AsI32(x)) % 0x1_0000_0000 == 0
  {
  }

  /// The same for `i16`, modulo 2^16.
  function AsI16(x: int): (r: I16)
    ensures I16Min <= x <= I16Max ==> r == x
  {
    (x - I16Min) % 0x1_0000 + I16Min
  }

  /// The wrapped value differs from `x` by a multiple of 2^16.
  lemma AsI16Wraps(x: int)
    ensures (x - AsI16(x)) % 0x1_0000 == 0
  {
  }

  predicate IsDigit(c: char) { '0' <= c <= '9' }

  predicate AllDigits(s: string) {
    forall i :: 0 <= i < |s| ==> IsDigit(s[i])
  }

  /// The value of a run of decimal digits, most significant first.
  function DigitsValue(s: string): nat
    requires AllDigits(s)
    decreases |s|
  {
    if s == [] then 0 else 10 * DigitsValue(s[..|s| - 1]) + (s[|s| - 1] as int - '0' as int)
  }

  /// `s.parse()` into an integer type whose range is `lo..=hi`.
  function ParseInt(s: string, signed: bool, lo: int, hi: int): (r: Option<int>)
    ensures r.Some? ==> lo <= r.value <= hi
    ensures r.Some? ==> |s| >= 1 && (IsDigit(s[0]) || s[0] == '+' || (signed && s[0] == '-'))
  {
    if s == [] then None
    else if (s[0] == '+' || s[0] == '-') && |s| == 1 then None
    else
      var negative := signed && s[0] == '-';
      var digits := if s[0] == '+' || negative then s[1..] else s;
      if !AllDigits(digits) then None
      else
        var mag: int := DigitsValue(digits);
        var v := if negative then -mag else mag;
        if lo <= v <= hi then Some(v) else None
  }

  /// The display text of the error `str::parse` reports when `ParseInt` fails:
  /// empty input, a character that is not a digit (a lone sign included), or a
  /// value outside the range on either side.
  function ParseIntErrorText(s: string, signed: bool, lo: int, hi: int): (r: string)
    requires ParseInt(s, signed, lo, hi).None?
    ensures s == [] <==> r == "cannot parse integer from empty string"
  {
    if s == [] then "cannot parse integer from empty string"
    else if (s[0] == '+' || s[0] == '-') && |s| == 1 then "invalid digit found in string"
    else
      var negative := signed && s[0] == '-';
      var digits := if s[0] == '+' || negative then s[1..] else s;
      if !AllDigits(digits) then "invalid digit found in string"
      else if negative then "number too small to fit in target type"
      else "number too large to fit in target type"
  }

  function ParseU64(s: string): Option<int> { ParseInt(s, false, 0, U64Max) }
  function ParseU128(s: string): Option<int> { ParseInt(s, false, 0, U128Max) }
  function ParseUsize(s: string): Option<int> { ParseInt(s, false, 0, UsizeMax) }
  function ParseI64(s: string): Option<int> { ParseInt(s, true, I64Min, I64Max) }
  function ParseI32(s: string): Option<int> { ParseInt(s, true, I32Min, I32Max) }

  function DigitChar(k: nat): char
    requires k < 10
  {
    ('0' as int + k) as char
  }

  /// `Display` of a non-negative integer: its shortest decimal digits.
  function Decimal(n: nat): string
    decreases n
  {
    if n < 10 then [DigitChar(n)] else Decimal(n / 10) + [DigitChar(n % 10)]
  }

  /// `Display` of any integer.
  function SignedDecimal(i: int): string {
    if i < 0 then "-" + Decimal(-i) else Decimal(i)
  }

  /// The printed digits are digits, never empty, and read back as the number.
  lemma {:induction false} DecimalDigits(n: nat)
    ensures |Decimal(n)| >= 1 && AllDigits(Decimal(n))
    ensures DigitsValue(Decimal(n)) == n
    decreases n
  {
    if n >= 10 {
      DecimalDigits(n / 10);
      var s := Decimal(n);
      assert s[..|s| - 1] == Decimal(n / 10);
    }
  }

  /// Parsing what was printed gives the number back, for every type whose range
  /// holds it.
  lemma ParseDecimal(n: nat, signed: bool, lo: int, hi: int)
    requires lo <= n <= hi
    ensures ParseInt(Decimal(n), signed, lo, hi) == Some(n)
  {
    DecimalDigits(n);
  }

  /// A minus sign before a run of digits reads as the negated digits.
  lemma ParseNegative(d: string, lo: int, hi: int)
    requires |d| >= 1 && AllDigits(d) && lo <= -(DigitsValue(d) as int) <= hi
    ensures ParseInt("-" + d, true, lo, hi) == Some(-(DigitsValue(d) as int))
  {
    var s := "-" + d;
    assert s[0] == '-' && s[1..] == d;
  }

  lemma ParseSignedDecimal(i: int, lo: int, hi: int)
    requires lo <= i <= hi
    ensures ParseInt(SignedDecimal(i), true, lo, hi) == Some(i)
  {
    if i < 0 {
      DecimalDigits(-i);
      ParseNegative(Decimal(-i), lo, hi);
    } else {
      ParseDecimal(i, true, lo, hi);
    }
  }

  /// A printed number never contains a character other than '-' and digits.
  lemma SignedDecimalChars(i: int)
    ensures forall k :: 0 <= k < |SignedDecimal(i)| ==> IsDigit(SignedDecimal(i)[k]) || SignedDecimal(i)[k] == '-'
  {
    if i < 0 { DecimalDigits(-i); } else { DecimalDigits(i); }
  }
}
