/** `std::to_string` and the `std::stol` family on the values the broker persists. */
module Decimal {
  import opened Outcomes

  const TWO_31: int := 0x8000_0000
  const TWO_32: int := 0x1_0000_0000
  const TWO_63: int := 0x8000_0000_0000_0000
  const TWO_64: int := 0x1_0000_0000_0000_0000

  predicate IsDigit(c: char) {
    '0' <= c <= '9'
  }

  predicate IsSpace(c: char) {
    c == ' ' || '\t' <= c <= '\r'
  }

  function DigitOf(d: nat): (c: char)
    requires d < 10
    ensures IsDigit(c) && c as int - '0' as int == d
  {
    (('0' as int) + d) as char
  }

  function Digits(n: nat): (s: string)
    ensures s != "" && forall i :: 0 <= i < |s| ==> IsDigit(s[i])
  {
    if n < 10 then [DigitOf(n)] else Digits(n / 10) + [DigitOf(n % 10)]
  }

  /** `std::to_string`. */
  function ToString(n: int): (s: string)
    ensures s != "" && '\n' !in s && '\0' !in s && '/' !in s
  {
    if n < 0 then "-" + Digits(-n) else Digits(n)
  }

  function Value(s: string): nat
    requires forall i :: 0 <= i < |s| ==> IsDigit(s[i])
  {
    if s == "" then 0
    else
      assert IsDigit(s[|s| - 1]);
      10 * Value(s[..|s| - 1]) + (s[|s| - 1] as int - '0' as int)
  }

  function LeadingDigits(s: string): (k: nat)
    ensures k <= |s|
    ensures forall i :: 0 <= i < k ==> IsDigit(s[i])
    ensures k < |s| ==> !IsDigit(s[k])
  {
    if s == "" || !IsDigit(s[0]) then 0 else 1 + LeadingDigits(s[1..])
  }

  function SkipSpace(s: string): string {
    if s != "" && IsSpace(s[0]) then SkipSpace(s[1..]) else s
  }

  function LeadingValue(s: string): Option<int> {
    var k := LeadingDigits(s);
    if k == 0 then None else Some(Value(s[..k]))
  }

  /** The integer `strtol` reads: blanks, a sign, digits; what follows is ignored. */
  function ParseInteger(s: string): Option<int> {
    var t := SkipSpace(s);
    if t != "" && t[0] == '-' then
      match LeadingValue(t[1..])
      case None => None
      case Some(v) => Some(-v)
    else if t != "" && t[0] == '+' then LeadingValue(t[1..])
    else LeadingValue(t)
  }

  /** `std::stol` and `std::stoll`: no digits or a value outside 64 bits throws. */
  function Stol(s: string): Result<int> {
    match ParseInteger(s)
    case None => Err("stol: no conversion")
    case Some(v) => if -TWO_63 <= v < TWO_63 then Ok(v) else Err("stol: out of range")
  }

  /** `std::stoul` and `std::stoull`: a leading minus negates modulo 2^64. */
  function Stoul(s: string): Result<nat> {
    match ParseInteger(s)
    case None => Err("stoul: no conversion")
    case Some(v) =>
      if -TWO_64 < v < TWO_64 then Ok(v % TWO_64) else Err("stoul: out of range")
  }

  /** `static_cast` to a 32-bit unsigned id. */
  function ToUint32(v: nat): (r: nat)
    ensures r < TWO_32
  {
    v % TWO_32
  }

  /** `static_cast` to a 32-bit signed pid. */
  function ToInt32(v: int): (r: int)
    ensures -TWO_31 <= r < TWO_31
  {
    var u := v % TWO_32;
    if u < TWO_31 then u else u - TWO_32
  }

  /** Unsigned 64-bit addition and subtraction follow the true value modulo 2^64. */
  lemma WrapStep(x: int, d: int)
    ensures (x % TWO_64 + d) % TWO_64 == (x + d) % TWO_64
  {
    assert x == x / TWO_64 * TWO_64 + x % TWO_64;
  }

  lemma {:induction false} ValueOfDigits(n: nat)
    ensures Value(Digits(n)) == n
  {
    if n >= 10 {
      ValueOfDigits(n / 10);
      assert Digits(n)[..|Digits(n)| - 1] == Digits(n / 10);
    } else {
      assert Digits(n)[..0] == "";
    }
  }

  lemma {:induction false} LeadingDigitsAll(s: string)
    requires forall i :: 0 <= i < |s| ==> IsDigit(s[i])
    ensures LeadingDigits(s) == |s|
  {
    if s != "" {
      LeadingDigitsAll(s[1..]);
    }
  }

  lemma LeadingValueOfDigits(n: nat)
    ensures LeadingValue(Digits(n)) == Some(n)
  {
    ValueOfDigits(n);
    LeadingDigitsAll(Digits(n));
    assert Digits(n)[..|Digits(n)|] == Digits(n);
  }

  lemma NoSpace(s: string)
    requires s != "" && (s[0] == '-' || IsDigit(s[0]))
    ensures SkipSpace(s) == s
  {}

  /** Reading back a printed integer gives the integer. */
  lemma ParseToString(n: int)
    ensures ParseInteger(ToString(n)) == Some(n)
  {
    NoSpace(ToString(n));
    if n < 0 {
      LeadingValueOfDigits(-n);
      assert ToString(n)[1..] == Digits(-n);
    } else {
      LeadingValueOfDigits(n);
      assert IsDigit(Digits(n)[0]);
    }
  }

  lemma ToStringInjective(a: int, b: int)
    requires ToString(a) == ToString(b)
    ensures a == b
  {
    ParseToString(a);
    ParseToString(b);
  }

  lemma StolToString(n: int)
    requires -TWO_63 <= n < TWO_63
    ensures Stol(ToString(n)) == Ok(n)
  {
    ParseToString(n);
  }

  lemma StoulToString(n: nat)
    requires n < TWO_64
    ensures Stoul(ToString(n)) == Ok(n)
  {
    ParseToString(n);
  }
}
