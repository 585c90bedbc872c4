/**
 * Shared vocabulary for the renderer model: an Option type standing for the
 * C code's nullable strings, and the few C library string routines the core
 * relies on (strtol/atoi for parsing, "%d" for printing, and the truncation
 * snprintf applies when its buffer is too small).
 */
module Common {

  /** A nullable value: None plays the role of a NULL `char *`. */
  datatype Option<+T> = None | Some(value: T) {
    function GetOr(default: T): T {
      match this
      case Some(v) => v
      case None => default
    }
  }

  predicate IsDigit(c: char) {
    '0' <= c <= '9'
  }

  /** The characters isspace() accepts in the C locale. */
  predicate IsSpace(c: char) {
    c == ' ' || c == '\t' || c == '\n' || c == '\r' || c == 11 as char || c == 12 as char
  }

  predicate AllDigits(s: string) {
    forall i :: 0 <= i < |s| ==> IsDigit(s[i])
  }

  function DigitValue(c: char): (d: nat)
    requires IsDigit(c)
    ensures d < 10
  {
    c as int - '0' as int
  }

  function DigitChar(d: nat): (c: char)
    requires d < 10
    ensures IsDigit(c) && DigitValue(c) == d
  {
    ('0' as int + d) as char
  }

  /** Length of the run of decimal digits that starts the string. */
  function DigitRun(s: string): (n: nat)
    ensures n <= |s|
    ensures forall i :: 0 <= i < n ==> IsDigit(s[i])
    ensures n < |s| ==> !IsDigit(s[n])
  {
    if |s| == 0 || !IsDigit(s[0]) then 0 else 1 + DigitRun(s[1..])
  }

  /** Length of the run of white space that starts the string. */
  function SpaceRun(s: string): (n: nat)
    ensures n <= |s|
    ensures forall i :: 0 <= i < n ==> IsSpace(s[i])
    ensures n < |s| ==> !IsSpace(s[n])
  {
    if |s| == 0 || !IsSpace(s[0]) then 0 else 1 + SpaceRun(s[1..])
  }

  /** The number a string of decimal digits denotes, read most significant first. */
  function DigitsValue(s: string): nat
    requires AllDigits(s)
  {
    if |s| == 0 then 0 else DigitsValue(s[..|s| - 1]) * 10 + DigitValue(s[|s| - 1])
  }

  /** The decimal text "%d" prints for a non-negative number. */
  function NatToString(n: nat): (s: string)
    ensures |s| > 0 && AllDigits(s)
    ensures s[0] == '0' ==> n == 0
  {
    if n < 10 then [DigitChar(n)] else NatToString(n / 10) + [DigitChar(n % 10)]
  }

  function Pow10(k: nat): (p: nat)
    ensures p >= 1
  {
    if k == 0 then 1 else 10 * Pow10(k - 1)
  }

  /** A number below 10^k prints in at most k digits. */
  lemma {:induction false} NatToStringLength(n: nat, k: nat)
    requires k >= 1 && n < Pow10(k)
    ensures |NatToString(n)| <= k
    decreases k
  {
    if n >= 10 {
      assert k != 1;
      NatToStringLength(n / 10, k - 1);
    }
  }

  /** The decimal text "%d" prints for any number. */
  function IntToString(n: int): (s: string)
    ensures |s| > 0
    ensures n < 0 <==> s[0] == '-'
  {
    if n < 0 then "-" + NatToString(-n) else NatToString(n)
  }

  /** What strtol(s, &end, 10) yields: the value and the index `end` points at. */
  datatype Parsed = Parsed(value: int, end: nat)

  /**
   * strtol with base 10: leading white space, an optional sign, then digits.
   * When no digit follows, nothing is converted and the end index is the
   * start of the string. Overflow to LONG_MAX/LONG_MIN is not modelled.
   */
  function Strtol(s: string): (p: Parsed)
    ensures p.end <= |s|
    ensures p.end == 0 ==> p.value == 0
    ensures p.end > 0 ==> IsDigit(s[p.end - 1])
    ensures p.end < |s| && p.end > 0 ==> !IsDigit(s[p.end])
  {
    var w := SpaceRun(s);
    var rest := s[w..];
    var signed := |rest| > 0 && (rest[0] == '-' || rest[0] == '+');
    var negative := |rest| > 0 && rest[0] == '-';
    var body := if signed then rest[1..] else rest;
    var n := DigitRun(body);
    if n == 0 then Parsed(0, 0)
    else
      var v: int := DigitsValue(body[..n]);
      Parsed(if negative then -v else v, w + (if signed then 1 else 0) + n)
  }

  /** 2^32: a conversion to a 32-bit `int` keeps its operand modulo this. */
  const IntModulus: int := 0x1_0000_0000

  /** The values a 32-bit `int` holds. */
  predicate IsInt32(x: int) {
    -0x8000_0000 <= x < 0x8000_0000
  }

  /** The conversion of a `long` to `int`, which gcc defines as wrapping modulo 2^32. */
  function ToInt32(x: int): (r: int)
    ensures IsInt32(r)
    ensures (x - r) % IntModulus == 0
    ensures IsInt32(x) ==> r == x
  {
    var m := x % IntModulus;
    if m >= 0x8000_0000 then m - IntModulus else m
  }

  /** atoi(s), which glibc defines as (int) strtol(s, NULL, 10). */
  function Atoi(s: string): int {
    ToInt32(Strtol(s).value)
  }

  /** The text snprintf leaves in a buffer of `size + 1` bytes. */
  function Truncate(s: string, size: nat): (r: string)
    ensures |r| == if |s| <= size then |s| else size
    ensures r <= s
  {
    if |s| <= size then s else s[..size]
  }

  lemma {:induction false} DigitsValueOfNatToString(n: nat)
    ensures DigitsValue(NatToString(n)) == n
    decreases n
  {
    var s := NatToString(n);
    if n >= 10 {
      DigitsValueOfNatToString(n / 10);
      assert s[..|s| - 1] == NatToString(n / 10);
    }
  }

  lemma {:induction false} DigitRunOfDigitsThen(d: string, t: string)
    requires AllDigits(d)
    requires |t| == 0 || !IsDigit(t[0])
    ensures DigitRun(d + t) == |d|
    decreases |d|
  {
    if |d| > 0 {
      assert (d + t)[1..] == d[1..] + t;
      DigitRunOfDigitsThen(d[1..], t);
    } else {
      assert d + t == t;
    }
  }

  /** strtol reads exactly a leading digit string and stops at the first non-digit. */
  lemma StrtolOfDigitsThen(d: string, t: string)
    requires |d| > 0 && AllDigits(d)
    requires |t| == 0 || !IsDigit(t[0])
    ensures Strtol(d + t) == Parsed(DigitsValue(d), |d|)
  {
    var s := d + t;
    assert s[0] == d[0];
    assert SpaceRun(s) == 0;
    assert s[0..] == s;
    DigitRunOfDigitsThen(d, t);
    assert s[..|d|] == d;
  }

  /**
   * atoi reads back what "%d" printed, narrowed to `int`: exactly the
   * number whenever it fits in 32 bits.
   */
  lemma AtoiOfIntToString(n: int)
    ensures Atoi(IntToString(n)) == ToInt32(n)
    ensures IsInt32(n) ==> Atoi(IntToString(n)) == n
  {
    if n < 0 {
      var d := NatToString(-n);
      var s := "-" + d;
      assert SpaceRun(s) == 0;
      assert s[0..] == s;
      assert s[1..] == d + "";
      DigitRunOfDigitsThen(d, "");
      assert d[..|d|] == d;
      DigitsValueOfNatToString(-n);
    } else {
      var d := NatToString(n);
      StrtolOfDigitsThen(d, "");
      assert d + "" == d;
      DigitsValueOfNatToString(n);
    }
  }

  /** atoi of text that does not start with a number is 0 (no error is reported). */
  lemma AtoiOfNonNumeric(s: string)
    requires |s| > 0 && !IsSpace(s[0]) && !IsDigit(s[0]) && s[0] != '-' && s[0] != '+'
    ensures Atoi(s) == 0
  {
    assert s[0..] == s;
  }
}
