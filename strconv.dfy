/**
 * The integer/text conversions both sides of the custom resource rely on:
 * Go's `strconv.Itoa` (stack side), `strconv.Atoi` (handler side) and the
 * `int32(...)` narrowing applied before the create call.  Go's `int` is
 * 64 bits wide.
 */
module Strconv {

  const MaxInt64: int := 0x7fff_ffff_ffff_ffff
  const MinInt64: int := -0x8000_0000_0000_0000
  const MaxUint64: int := 0xffff_ffff_ffff_ffff
  const TwoTo31: int := 0x8000_0000
  const TwoTo32: int := 0x1_0000_0000

  predicate IsDigit(c: char) {
    '0' <= c <= '9'
  }

  predicate AllDigits(s: string) {
    forall i :: 0 <= i < |s| ==> IsDigit(s[i])
  }

  function DigitChar(d: nat): (c: char)
    requires d < 10
    ensures IsDigit(c) && c as int - '0' as int == d
  {
    ('0' as int + d) as char
  }

  /** The value of a run of decimal digits, most significant digit first. */
  function DigitsValue(s: string): nat
    requires AllDigits(s)
  {
    if s == [] then 0 else DigitsValue(s[..|s| - 1]) * 10 + (s[|s| - 1] as int - '0' as int)
  }

  /** Length of the longest prefix of `s` that consists of digits. */
  function DigitPrefixLen(s: string): (n: nat)
    ensures n <= |s| && AllDigits(s[..n])
    ensures n < |s| ==> !IsDigit(s[n])
  {
    if s == [] || !IsDigit(s[0]) then 0
    else
      var m := DigitPrefixLen(s[1..]);
      assert s[..1 + m] == [s[0]] + s[1..][..m];
      1 + m
  }

  /** Decimal rendering of a natural number, without leading zeros. */
  function NatToString(n: nat): (s: string)
    ensures s != [] && AllDigits(s) && DigitsValue(s) == n
    ensures s[0] != '-' && s[0] != '+'
  {
    if n < 10 then [DigitChar(n)]
    else
      var t := NatToString(n / 10);
      var s := t + [DigitChar(n % 10)];
      assert s[..|s| - 1] == t;
      s
  }

  /** `strconv.Itoa`: decimal rendering with a leading '-' for negatives. */
  function Itoa(i: int): (s: string)
    ensures s != [] && (s[0] == '-' <==> i < 0)
    ensures AllDigits(if i < 0 then s[1..] else s)
  {
    if i < 0 then "-" + NatToString(-i) else NatToString(i)
  }

  /**
   * What `strconv.Atoi` returns.  On an error Go still returns an int:
   * 0 for a syntax error, the clamped bound for a range error.
   */
  datatype AtoiResult = AtoiOk(n: int) | AtoiErr(returned: int)

  /** The text after an optional leading '+' or '-'. */
  function Body(s: string): string {
    if |s| > 0 && (s[0] == '+' || s[0] == '-') then s[1..] else s
  }

  /**
   * `strconv.Atoi` for a 64-bit `int`: an optional sign, then at least one
   * decimal digit and nothing else, with a value inside the int64 range.
   * The digits are scanned left to right, so an unsigned 64-bit overflow
   * before the first non-digit is reported as a range error.
   */
  function Atoi(s: string): (r: AtoiResult)
    ensures r.AtoiOk? ==> MinInt64 <= r.n <= MaxInt64
    ensures r.AtoiOk? ==> Body(s) != [] && AllDigits(Body(s))
    ensures r.AtoiErr? ==> r.returned in {0, MinInt64, MaxInt64}
  {
    var neg := |s| > 0 && s[0] == '-';
    var body := Body(s);
    var p := DigitPrefixLen(body);
    if body == [] then AtoiErr(0)
    else if DigitsValue(body[..p]) > MaxUint64 then AtoiErr(if neg then MinInt64 else MaxInt64)
    else if p < |body| then AtoiErr(0)
    else
      assert body[..p] == body;
      var v: int := if neg then -(DigitsValue(body) as int) else DigitsValue(body);
      if v < MinInt64 then AtoiErr(MinInt64)
      else if v > MaxInt64 then AtoiErr(MaxInt64)
      else AtoiOk(v)
  }

  /** Atoi on an explicit sign followed by digits: the signed value, or a range error. */
  lemma AtoiOfSignedDigits(sign: string, ds: string)
    requires sign == "" || sign == "+" || sign == "-"
    requires ds != [] && AllDigits(ds)
    ensures var v: int := if sign == "-" then -(DigitsValue(ds) as int) else DigitsValue(ds);
            Atoi(sign + ds) == if MinInt64 <= v <= MaxInt64 then AtoiOk(v)
                               else AtoiErr(if sign == "-" then MinInt64 else MaxInt64)
  {
    var s := sign + ds;
    assert Body(s) == ds by {
      if sign == "" { assert s == ds; } else { assert s[1..] == ds; }
    }
    assert DigitPrefixLen(ds) == |ds|;
    assert ds[..|ds|] == ds;
  }

  /** Text that Itoa produces is read back by Atoi as the same int. */
  lemma AtoiItoaRoundTrip(i: int)
    requires MinInt64 <= i <= MaxInt64
    ensures Atoi(Itoa(i)) == AtoiOk(i)
  {
    if i < 0 {
      AtoiOfSignedDigits("-", NatToString(-i));
    } else {
      AtoiOfSignedDigits("", NatToString(i));
      assert "" + NatToString(i) == Itoa(i);
    }
  }

  /** Equal renderings come from equal numbers. */
  lemma NatToStringInjective(m: nat, n: nat)
    requires NatToString(m) == NatToString(n)
    ensures m == n
  {
  }

  /** Go's `int32(x)` conversion: keep the low 32 bits, read them as two's complement. */
  function ToInt32(x: int): (r: int)
    ensures -TwoTo31 <= r < TwoTo31
    ensures (x - r) % TwoTo32 == 0
    ensures -TwoTo31 <= x < TwoTo31 ==> r == x
  {
    var m := x % TwoTo32;
    if m >= TwoTo31 then m - TwoTo32 else m
  }
}
