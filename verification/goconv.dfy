/** The value conversions the configuration codec uses from Go's `strconv`
    and `fmt` packages: `strconv.ParseBool`, `strconv.Atoi` on a 64-bit
    platform, and the `%v` / `%d` renderings of booleans and integers. */
module GoConv {
  import opened Wrappers

  const MinInt64: int := -0x8000_0000_0000_0000
  const MaxInt64: int := 0x7FFF_FFFF_FFFF_FFFF

  /** Go's `int` on a 64-bit platform. */
  newtype Int64 = x: int | MinInt64 <= x <= MaxInt64

  /** A Go `float64`, kept as its IEEE 754 bit pattern: the codec never does
      arithmetic on it, and its text conversions are supplied by the caller. */
  datatype Float64 = Float64(bits: bv64)

  /** `strconv.ParseBool`: exactly twelve spellings are accepted, of at
      most five characters; the first character alone decides the value. */
  function ParseBool(s: string): (r: Option<bool>)
    ensures r.Some? ==> 1 <= |s| <= 5
    ensures r.Some? ==> (r.value <==> s[0] in {'1', 't', 'T'})
  {
    if s == "1" || s == "t" || s == "T" || s == "TRUE" || s == "true" || s == "True" then Some(true)
    else if s == "0" || s == "f" || s == "F" || s == "FALSE" || s == "false" || s == "False" then Some(false)
    else None
  }

  /** `ParseBool` accepts the twelve spellings and nothing else. */
  lemma ParseBoolAccepts(s: string)
    ensures ParseBool(s).Some? <==>
      s in {"1", "t", "T", "TRUE", "true", "True", "0", "f", "F", "FALSE", "false", "False"}
  {
  }

  /** `fmt.Sprintf("%v", b)`; the text it writes is read back as `b`. */
  function FormatBool(b: bool): (r: string)
    ensures ParseBool(r) == Some(b)
    ensures r != [] && r[|r| - 1] == 'e'
  {
    if b then "true" else "false"
  }

  predicate IsDigit(c: char) {
    '0' <= c <= '9'
  }

  predicate AllDigits(s: string) {
    forall i :: 0 <= i < |s| ==> IsDigit(s[i])
  }

  function DigitValue(c: char): (d: nat)
    requires IsDigit(c)
    ensures d < 10
  {
    (c as int - '0' as int) as nat
  }

  function DigitChar(d: nat): (c: char)
    requires d < 10
    ensures IsDigit(c) && DigitValue(c) == d
  {
    ('0' as int + d) as char
  }

  /** The number a string of decimal digits denotes (leading zeros allowed). */
  function DigitsValue(ds: string): nat
    requires AllDigits(ds)
    decreases |ds|
  {
    if ds == [] then 0 else DigitsValue(ds[..|ds| - 1]) * 10 + DigitValue(ds[|ds| - 1])
  }

  /** The decimal digits of `n`, with no leading zero. */
  function FormatNat(n: nat): (r: string)
    ensures r != [] && AllDigits(r) && DigitsValue(r) == n
    ensures r[0] == '0' ==> n == 0
    decreases n
  {
    if n < 10 then [DigitChar(n)]
    else
      var r := FormatNat(n / 10) + [DigitChar(n % 10)];
      assert r[..|r| - 1] == FormatNat(n / 10);
      r
  }

  /** `strconv.Atoi` with 64-bit `int`: an optional `+` or `-`, then one or
      more decimal digits, denoting a value within the 64-bit range. */
  function Atoi(s: string): (r: Option<Int64>)
    ensures r.Some? ==> s != [] && (IsDigit(s[0]) || s[0] == '+' || s[0] == '-') && AllDigits(s[1..])
    ensures r.Some? && s[0] == '-' ==> r.value <= 0
    ensures s != [] && AllDigits(s) && DigitsValue(s) <= MaxInt64 ==> r == Some(DigitsValue(s) as Int64)
  {
    var signed := s != [] && (s[0] == '+' || s[0] == '-');
    var digits := if signed then s[1..] else s;
    if digits == [] || !AllDigits(digits) then None
    else
      var magnitude: int := DigitsValue(digits);
      var v: int := if s[0] == '-' then -magnitude else magnitude;
      if MinInt64 <= v <= MaxInt64 then Some(v as Int64) else None
  }

  /** Which texts `Atoi` accepts and the value of each: the signed decimal
      value of its digits, and a rejection when that value is outside the
      64-bit range. */
  lemma AtoiValue(s: string)
    ensures Atoi(s).Some? ==> s != [] && (s[0] == '+' || s[0] == '-' ==> |s| >= 2)
    ensures s != [] && AllDigits(s) ==>
      Atoi(s) == if DigitsValue(s) <= MaxInt64 then Some(DigitsValue(s) as Int64) else None
    ensures |s| >= 2 && s[0] == '+' && AllDigits(s[1..]) ==>
      Atoi(s) == if DigitsValue(s[1..]) <= MaxInt64 then Some(DigitsValue(s[1..]) as Int64) else None
    ensures |s| >= 2 && s[0] == '-' && AllDigits(s[1..]) ==>
      var v := -(DigitsValue(s[1..]) as int);
      Atoi(s) == if MinInt64 <= v then Some(v as Int64) else None
  {
    if s != [] && AllDigits(s) {
      AtoiUnsigned(s);
    }
    if |s| >= 2 && (s[0] == '+' || s[0] == '-') && AllDigits(s[1..]) {
      AtoiSigned(s);
    }
  }

  /** Helper for `AtoiValue`: a text of digits only. */
  lemma AtoiUnsigned(s: string)
    requires s != [] && AllDigits(s)
    ensures Atoi(s) == if DigitsValue(s) <= MaxInt64 then Some(DigitsValue(s) as Int64) else None
  {
    assert IsDigit(s[0]);
  }

  /** Helper for `AtoiValue`: a sign followed by digits. */
  lemma AtoiSigned(s: string)
    requires |s| >= 2 && (s[0] == '+' || s[0] == '-') && AllDigits(s[1..])
    ensures var v := if s[0] == '-' then -(DigitsValue(s[1..]) as int) else DigitsValue(s[1..]);
      Atoi(s) == if MinInt64 <= v <= MaxInt64 then Some(v as Int64) else None
  {
  }

  /** `fmt.Sprintf("%d", n)`; `strconv.Atoi` reads the text back as `n`. */
  function FormatInt(n: Int64): (r: string)
    ensures Atoi(r) == Some(n)
    ensures r != [] && IsDigit(r[|r| - 1]) && '\n' !in r
  {
    if n < 0 then
      var ds := FormatNat(-(n as int));
      assert ("-" + ds)[1..] == ds;
      "-" + ds
    else FormatNat(n as int)
  }
}
