/** Decimal numerals: `std::to_string` on a non-negative rank, `std::stoul`
    on a command-line value, and the conversion of an `unsigned long` to a
    32-bit `unsigned int`. */
module Numerals {
  import opened Outcomes

  /** Largest `unsigned long` on an LP64 platform. */
  const ULONG_MAX: nat := 0xFFFF_FFFF_FFFF_FFFF
  /** Number of values of a 32-bit `unsigned int`. */
  const UINT_MODULUS: nat := 0x1_0000_0000

  predicate IsDigit(c: char) {
    '0' <= c <= '9'
  }

  predicate IsDigits(s: string) {
    forall i :: 0 <= i < |s| ==> IsDigit(s[i])
  }

  function DigitValue(c: char): (d: nat)
    requires IsDigit(c)
    ensures d < 10
  {
    c as int - '0' as int
  }

  function DigitChar(d: nat): (c: char)
    requires d < 10
    ensures IsDigit(c) && DigitValue(c) == d
  {
    ('0' as int + d) as char
  }

  /** The number a string of decimal digits denotes, most significant first. */
  function ValueOf(s: string): (n: nat)
    requires IsDigits(s)
  {
    if s == [] then 0 else ValueOf(s[..|s| - 1]) * 10 + DigitValue(s[|s| - 1])
  }

  /** `std::to_string(n)` for n >= 0: the shortest decimal numeral of n. */
  function ToString(n: nat): (s: string)
    ensures |s| >= 1 && IsDigits(s)
    ensures s[0] == '0' ==> n == 0 && |s| == 1
  {
    if n < 10 then [DigitChar(n)] else ToString(n / 10) + [DigitChar(n % 10)]
  }

  /** Reading back the numeral gives the number. */
  lemma {:induction false} ValueOfToString(n: nat)
    ensures ValueOf(ToString(n)) == n
  {
    var s := ToString(n);
    if n >= 10 {
      ValueOfToString(n / 10);
      assert s[..|s| - 1] == ToString(n / 10);
    }
  }

  /** Distinct numbers have distinct numerals. */
  lemma ToStringInjective(m: nat, n: nat)
    requires ToString(m) == ToString(n)
    ensures m == n
  {
    ValueOfToString(m);
    ValueOfToString(n);
  }

  /** The longest run of decimal digits at the start of `s`. */
  function LeadingDigits(s: string): (p: string)
    ensures |p| <= |s| && p == s[..|p|]
    ensures IsDigits(p)
    ensures |p| < |s| ==> !IsDigit(s[|p|])
  {
    if s == [] || !IsDigit(s[0]) then [] else [s[0]] + LeadingDigits(s[1..])
  }

  /** `std::stoul(s)` in base 10, restricted to strings without leading
      white space or sign: the leading digits are read and the rest of the
      string is ignored; no leading digit raises std::invalid_argument, a
      value above ULONG_MAX raises std::out_of_range. */
  function Stoul(s: string): (r: Result<nat>)
    ensures r == Err(InvalidArgument) <==> s == [] || !IsDigit(s[0])
    ensures r.Ok? ==> r.value <= ULONG_MAX
  {
    var digits := LeadingDigits(s);
    if digits == [] then Err(InvalidArgument)
    else if ValueOf(digits) > ULONG_MAX then Err(OutOfRange)
    else Ok(ValueOf(digits))
  }

  lemma {:induction false} LeadingDigitsOfNumeral(p: string, rest: string)
    requires IsDigits(p)
    requires rest == [] || !IsDigit(rest[0])
    ensures LeadingDigits(p + rest) == p
  {
    if p != [] {
      assert (p + rest)[1..] == p[1..] + rest;
      LeadingDigitsOfNumeral(p[1..], rest);
    }
  }

  /** A numeral followed by anything that does not start with a digit is
      read back as its number, provided it fits in an `unsigned long`. */
  lemma StoulReadsNumeral(n: nat, rest: string)
    requires n <= ULONG_MAX
    requires rest == [] || !IsDigit(rest[0])
    ensures Stoul(ToString(n) + rest) == Ok(n)
  {
    LeadingDigitsOfNumeral(ToString(n), rest);
    ValueOfToString(n);
  }

  /** A numeral whose value exceeds ULONG_MAX, followed by anything that
      does not start with a digit, raises std::out_of_range. */
  lemma StoulTooLarge(n: nat, rest: string)
    requires n > ULONG_MAX
    requires rest == [] || !IsDigit(rest[0])
    ensures Stoul(ToString(n) + rest) == Err(OutOfRange)
  {
    LeadingDigitsOfNumeral(ToString(n), rest);
    ValueOfToString(n);
  }

  /** A string of `k` zero digits. */
  function Zeros(k: nat): (z: string)
    ensures |z| == k && IsDigits(z)
    ensures forall i :: 0 <= i < k ==> z[i] == '0'
  {
    if k == 0 then [] else Zeros(k - 1) + ['0']
  }

  lemma {:induction false} LeadingDigitsOfDigits(p: string, s: string)
    requires IsDigits(p)
    ensures LeadingDigits(p + s) == p + LeadingDigits(s)
  {
    if p != [] {
      assert (p + s)[1..] == p[1..] + s;
      LeadingDigitsOfDigits(p[1..], s);
      assert [p[0]] + (p[1..] + LeadingDigits(s)) == p + LeadingDigits(s);
    } else {
      assert p + s == s;
    }
  }

  /** Zeros in front of a digit string do not change its value. */
  lemma {:induction false} ValueOfLeadingZeros(k: nat, s: string)
    requires IsDigits(s)
    ensures ValueOf(Zeros(k) + s) == ValueOf(s)
    decreases |s|, k
  {
    var z := Zeros(k);
    if s == [] {
      assert z + s == z;
      if k > 0 {
        assert z[..k - 1] == Zeros(k - 1);
        ValueOfLeadingZeros(k - 1, []);
        assert Zeros(k - 1) + [] == Zeros(k - 1);
      }
    } else {
      var t := z + s;
      assert t[..|t| - 1] == z + s[..|s| - 1];
      ValueOfLeadingZeros(k, s[..|s| - 1]);
    }
  }

  /** Leading zeros are read by value: `stoul("007")` is 7. */
  lemma StoulIgnoresLeadingZeros(k: nat, s: string)
    requires s != [] && IsDigit(s[0])
    ensures Stoul(Zeros(k) + s) == Stoul(s)
  {
    LeadingDigitsOfDigits(Zeros(k), s);
    ValueOfLeadingZeros(k, LeadingDigits(s));
  }

  lemma StoulExamples()
    ensures Stoul("007") == Ok(7)
  {
    StoulIgnoresLeadingZeros(2, "7");
    assert Zeros(2) + "7" == "007";
    StoulReadsNumeral(7, []);
    assert ToString(7) + [] == "7";
  }

  /** The conversion of an `unsigned long` to a 32-bit `unsigned int`:
      reduction modulo 2^32. */
  function ToUnsignedInt(n: nat): (u: nat)
    ensures u < UINT_MODULUS
    ensures n < UINT_MODULUS ==> u == n
    ensures (n - u) % UINT_MODULUS == 0
  {
    n % UINT_MODULUS
  }
}
