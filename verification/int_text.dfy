/**
 * Decimal text of fixed-width integers, as Rust's standard library reads and writes it:
 * `str::parse::<u16>` / `str::parse::<i32>` (`from_str_radix` with radix 10) and `to_string`.
 * The configuration loader parses ports with it, the error responder parses SQLSTATE codes
 * with it, and replies format numbers with it.
 */
module IntText {
  import opened Basics

  type U16 = x: int | 0 <= x <= 0xFFFF
  type I32 = x: int | -0x8000_0000 <= x <= 0x7FFF_FFFF

  const U16_MAX: int := 0xFFFF
  const I32_MIN: int := -0x8000_0000
  const I32_MAX: int := 0x7FFF_FFFF

  /** `std::num::IntErrorKind`, restricted to the kinds radix-10 parsing can produce. */
  datatype IntErrorKind = Empty | InvalidDigit | PosOverflow | NegOverflow

  /** The `Display` text of a `ParseIntError` of the given kind. */
  function Description(kind: IntErrorKind): string {
    match kind
    case Empty => "cannot parse integer from empty string"
    case InvalidDigit => "invalid digit found in string"
    case PosOverflow => "number too large to fit in target type"
    case NegOverflow => "number too small to fit in target type"
  }

  /** The `Debug` name of the kind, as a panic message shows it. */
  function KindName(kind: IntErrorKind): string {
    match kind
    case Empty => "Empty"
    case InvalidDigit => "InvalidDigit"
    case PosOverflow => "PosOverflow"
    case NegOverflow => "NegOverflow"
  }

  predicate IsDigit(c: char) { '0' <= c <= '9' }

  predicate AllDigits(s: string) { forall i :: 0 <= i < |s| ==> IsDigit(s[i]) }

  function DigitValue(c: char): (d: nat)
    requires IsDigit(c)
    ensures d < 10
  {
    c as int - '0' as int
  }

  function DigitChar(d: nat): (c: char)
    requires d < 10
    ensures IsDigit(c) && DigitValue(c) == d
  {
    (d + '0' as int) as char
  }

  function Pow10(n: nat): (p: nat)
    ensures p >= 1
  {
    if n == 0 then 1 else 10 * Pow10(n - 1)
  }

  /** The number a string of decimal digits denotes (the reference reading, last digit least significant). */
  function Value(ds: string): nat
    requires AllDigits(ds)
    decreases |ds|
  {
    if ds == [] then 0 else 10 * Value(ds[..|ds| - 1]) + DigitValue(ds[|ds| - 1])
  }

  /**
   * The digit loop of `from_str_radix`: reads `ds` left to right into `acc`,
   * stopping at the first non-digit (InvalidDigit) or the first step that leaves
   * the target range (PosOverflow when accumulating upwards, NegOverflow downwards).
   */
  function Accumulate(ds: string, acc: int, negative: bool, lo: int, hi: int): (r: Result<int, IntErrorKind>)
    requires lo <= 0 <= hi
    requires if negative then lo <= acc <= 0 else 0 <= acc <= hi
    ensures r.Ok? ==> AllDigits(ds)
    ensures r.Ok? ==> if negative then lo <= r.value <= 0 else 0 <= r.value <= hi
    ensures r.Err? ==> r.error != Empty
    decreases |ds|
  {
    if ds == [] then Ok(acc)
    else if !IsDigit(ds[0]) then Err(InvalidDigit)
    else if !negative then
      var next := 10 * acc + DigitValue(ds[0]);
      if next > hi then Err(PosOverflow)
      else
        var r := Accumulate(ds[1..], next, negative, lo, hi);
        assert r.Ok? ==> forall i :: 1 <= i < |ds| ==> ds[i] == ds[1..][i - 1];
        r
    else
      var next := 10 * acc - DigitValue(ds[0]);
      if next < lo then Err(NegOverflow)
      else
        var r := Accumulate(ds[1..], next, negative, lo, hi);
        assert r.Ok? ==> forall i :: 1 <= i < |ds| ==> ds[i] == ds[1..][i - 1];
        r
  }

  /** How `from_str_radix` splits off a sign: `+` always, `-` only for signed targets. */
  function SignAndDigits(s: string, signed: bool): (bool, string) {
    if |s| > 0 && s[0] == '+' then (false, s[1..])
    else if |s| > 0 && s[0] == '-' && signed then (true, s[1..])
    else (false, s)
  }

  /** The length of the longest prefix of s made of digits only. */
  function DigitRun(s: string): (k: nat)
    ensures k <= |s| && AllDigits(s[..k])
    ensures k < |s| ==> !IsDigit(s[k])
    decreases |s|
  {
    if s == [] || !IsDigit(s[0]) then 0
    else
      var k := 1 + DigitRun(s[1..]);
      assert forall i :: 1 <= i < k ==> s[..k][i] == s[1..][..k - 1][i - 1];
      k
  }

  /** The first non-digit after a run of digits ends the run. */
  lemma {:induction false} DigitRunStopsAt(ds: string, rest: string)
    requires AllDigits(ds) && rest != [] && !IsDigit(rest[0])
    ensures DigitRun(ds + rest) == |ds|
    decreases |ds|
  {
    var t := ds + rest;
    if ds == [] {
      assert t == rest;
    } else {
      assert t[0] == ds[0];
      assert t[1..] == ds[1..] + rest;
      assert AllDigits(ds[1..]) by {
        forall i | 0 <= i < |ds| - 1 ensures IsDigit(ds[1..][i]) {
          assert ds[1..][i] == ds[i + 1];
        }
      }
      DigitRunStopsAt(ds[1..], rest);
    }
  }

  /**
   * A text on which the parser reports `InvalidDigit`: a lone sign, or a non-digit that
   * comes before the digits read so far leave the target range.
   */
  ghost predicate BadDigitFirst(s: string, signed: bool, lo: int, hi: int) {
    var (negative, ds) := SignAndDigits(s, signed);
    var k := DigitRun(ds);
    s != [] && (ds == [] || (k < |ds| && lo <= (if negative then -(Value(ds[..k]) as int) else Value(ds[..k])) <= hi))
  }

  /** A literal the parser accepts: after the sign, one or more digits whose value lies in [lo, hi]. */
  ghost predicate IsLiteral(s: string, signed: bool, lo: int, hi: int) {
    var (negative, ds) := SignAndDigits(s, signed);
    ds != [] && AllDigits(ds) && lo <= (if negative then -(Value(ds) as int) else Value(ds)) <= hi
  }

  /** The value of an accepted literal. */
  ghost function LiteralValue(s: string, signed: bool): int
    requires AllDigits(SignAndDigits(s, signed).1)
  {
    var (negative, ds) := SignAndDigits(s, signed);
    if negative then -(Value(ds) as int) else Value(ds)
  }

  /** `from_str_radix(s, 10)` into the range [lo, hi]: sign handling, then the digit loop. */
  function ParseInt(s: string, signed: bool, lo: int, hi: int): Result<int, IntErrorKind>
    requires lo <= 0 <= hi
  {
    if |s| == 0 then Err(Empty)
    else if (s[0] == '+' || s[0] == '-') && |s| == 1 then Err(InvalidDigit)
    else if s[0] == '+' then Accumulate(s[1..], 0, false, lo, hi)
    else if s[0] == '-' && signed then Accumulate(s[1..], 0, true, lo, hi)
    else Accumulate(s, 0, false, lo, hi)
  }

  /** Reading the first digit first agrees with the reference reading. */
  lemma {:induction false} ValueFront(ds: string)
    requires AllDigits(ds) && ds != []
    ensures Value(ds) == DigitValue(ds[0]) * Pow10(|ds| - 1) + Value(ds[1..])
    decreases |ds|
  {
    if |ds| == 1 {
      assert ds[..0] == [] && ds[1..] == [];
    } else {
      var init := ds[..|ds| - 1];
      ValueFront(init);
      assert ds[1..][..|ds| - 2] == init[1..];
      assert ds[1..][|ds| - 2] == ds[|ds| - 1];
      Regroup(DigitValue(ds[0]), Pow10(|ds| - 2), Value(init[1..]), DigitValue(ds[|ds| - 1]));
    }
  }

  lemma Regroup(a: int, p: int, v: int, d: int)
    ensures 10 * (a * p + v) + d == a * (10 * p) + (10 * v + d)
  {
  }

  /** The number the digits ds denote when read after acc: upwards, or downwards for a negative literal. */
  function Total(ds: string, acc: int, negative: bool): int
    requires AllDigits(ds)
  {
    if negative then acc * Pow10(|ds|) - Value(ds) else acc * Pow10(|ds|) + Value(ds)
  }

  /** What the digit loop should yield: that number, or the overflow in its direction. */
  function Expected(ds: string, acc: int, negative: bool, lo: int, hi: int): Result<int, IntErrorKind>
    requires AllDigits(ds)
  {
    var total := Total(ds, acc, negative);
    if lo <= total <= hi then Ok(total) else if negative then Err(NegOverflow) else Err(PosOverflow)
  }

  lemma TotalStep(ds: string, acc: int, negative: bool)
    requires AllDigits(ds) && ds != []
    ensures AllDigits(ds[1..])
    ensures Total(ds, acc, negative) ==
              Total(ds[1..], if negative then 10 * acc - DigitValue(ds[0]) else 10 * acc + DigitValue(ds[0]), negative)
  {
    var d := DigitValue(ds[0]);
    var rest := ds[1..];
    assert AllDigits(rest) by {
      forall i | 0 <= i < |rest| ensures IsDigit(rest[i]) { assert rest[i] == ds[i + 1]; }
    }
    var p := Pow10(|rest|);
    var v := Value(rest);
    assert Pow10(|ds|) == 10 * p;
    assert Value(ds) == d * p + v by { ValueFront(ds); }
    ShiftDigit(acc, d, p, v);
    if negative {
      calc {
        Total(ds, acc, negative);
        acc * Pow10(|ds|) - Value(ds);
        acc * (10 * p) - (d * p + v);
        (10 * acc - d) * p - v;
        Total(rest, 10 * acc - d, negative);
      }
    } else {
      calc {
        Total(ds, acc, negative);
        acc * Pow10(|ds|) + Value(ds);
        acc * (10 * p) + (d * p + v);
        (10 * acc + d) * p + v;
        Total(rest, 10 * acc + d, negative);
      }
    }
  }

  /** Reading more digits never moves the number back towards zero. */
  lemma TotalBeyond(ds: string, acc: int, negative: bool)
    requires AllDigits(ds)
    ensures !negative && acc >= 0 ==> Total(ds, acc, negative) >= acc
    ensures negative && acc <= 0 ==> Total(ds, acc, negative) <= acc
  {
    if negative && acc <= 0 {
      MulAtLeastOne(-acc, Pow10(|ds|));
    } else if !negative && acc >= 0 {
      MulAtLeastOne(acc, Pow10(|ds|));
    }
  }

  /** One step of the digit loop, on the side of the reference reading. */
  lemma ExpectedStep(ds: string, acc: int, negative: bool, lo: int, hi: int)
    requires lo <= 0 <= hi
    requires if negative then lo <= acc <= 0 else 0 <= acc <= hi
    requires AllDigits(ds) && ds != []
    ensures AllDigits(ds[1..])
    ensures var next := if negative then 10 * acc - DigitValue(ds[0]) else 10 * acc + DigitValue(ds[0]);
            Expected(ds, acc, negative, lo, hi) ==
              if !negative && next > hi then Err(PosOverflow)
              else if negative && next < lo then Err(NegOverflow)
              else Expected(ds[1..], next, negative, lo, hi)
  {
    TotalStep(ds, acc, negative);
    var next := if negative then 10 * acc - DigitValue(ds[0]) else 10 * acc + DigitValue(ds[0]);
    TotalBeyond(ds[1..], next, negative);
  }

  /** The digit loop computes acc followed by the digits, or the overflow in its direction. */
  lemma {:induction false} AccumulateValue(ds: string, acc: int, negative: bool, lo: int, hi: int)
    requires lo <= 0 <= hi
    requires if negative then lo <= acc <= 0 else 0 <= acc <= hi
    requires AllDigits(ds)
    ensures Accumulate(ds, acc, negative, lo, hi) == Expected(ds, acc, negative, lo, hi)
    decreases |ds|
  {
    if ds != [] {
      ExpectedStep(ds, acc, negative, lo, hi);
      var next := if negative then 10 * acc - DigitValue(ds[0]) else 10 * acc + DigitValue(ds[0]);
      if (!negative && next > hi) || (negative && next < lo) {
      } else {
        AccumulateValue(ds[1..], next, negative, lo, hi);
      }
    }
  }

  /**
   * The digit loop on any text: the digits before the first non-digit are read as the
   * reference reading says; if they leave the range that overflow is reported, and
   * otherwise a non-digit after them is reported as `InvalidDigit`.
   */
  lemma {:induction false} AccumulateReads(ds: string, acc: int, negative: bool, lo: int, hi: int)
    requires lo <= 0 <= hi
    requires if negative then lo <= acc <= 0 else 0 <= acc <= hi
    ensures var k := DigitRun(ds);
            var e := Expected(ds[..k], acc, negative, lo, hi);
            Accumulate(ds, acc, negative, lo, hi) == if e.Err? || k == |ds| then e else Err(InvalidDigit)
    decreases |ds|
  {
    var k := DigitRun(ds);
    if ds != [] && IsDigit(ds[0]) {
      var pre := ds[..k];
      ExpectedStep(pre, acc, negative, lo, hi);
      assert pre[0] == ds[0];
      assert pre[1..] == ds[1..][..DigitRun(ds[1..])];
      var next := if negative then 10 * acc - DigitValue(ds[0]) else 10 * acc + DigitValue(ds[0]);
      if (!negative && next > hi) || (negative && next < lo) {
      } else {
        AccumulateReads(ds[1..], next, negative, lo, hi);
      }
    }
  }

  lemma ShiftDigit(acc: int, d: int, p: int, v: int)
    ensures acc * (10 * p) + (d * p + v) == (10 * acc + d) * p + v
    ensures acc * (10 * p) - (d * p + v) == (10 * acc - d) * p - v
  {
  }

  lemma MulAtLeastOne(x: int, p: int)
    requires x >= 0 && p >= 1
    ensures x * p >= x && (-x) * p <= -x
  {
  }

  /** The parser accepts exactly the literals, with their value, and names the right failure. */
  lemma ParseIntMeaning(s: string, signed: bool, lo: int, hi: int)
    requires lo <= 0 <= hi
    ensures ParseInt(s, signed, lo, hi).Ok? <==> IsLiteral(s, signed, lo, hi)
    ensures ParseInt(s, signed, lo, hi).Ok? ==> ParseInt(s, signed, lo, hi).value == LiteralValue(s, signed)
    ensures ParseInt(s, signed, lo, hi) == Err(Empty) <==> s == []
    ensures var (negative, ds) := SignAndDigits(s, signed);
            ds != [] && AllDigits(ds) && !IsLiteral(s, signed, lo, hi) ==>
              ParseInt(s, signed, lo, hi) == Err(if negative then NegOverflow else PosOverflow)
    ensures ParseInt(s, signed, lo, hi) == Err(InvalidDigit) <==> BadDigitFirst(s, signed, lo, hi)
  {
    var (negative, ds) := SignAndDigits(s, signed);
    if |s| == 0 || ((s[0] == '+' || s[0] == '-') && |s| == 1) {
      assert !AllDigits(ds) || ds == [];
    } else {
      assert ParseInt(s, signed, lo, hi) == Accumulate(ds, 0, negative, lo, hi);
      if AllDigits(ds) {
        AccumulateValue(ds, 0, negative, lo, hi);
      }
      AccumulateReads(ds, 0, negative, lo, hi);
    }
  }

  /** `str::parse::<u16>`. */
  function ParseU16(s: string): (r: Result<U16, IntErrorKind>)
    ensures r.Ok? <==> IsLiteral(s, false, 0, U16_MAX)
    ensures r.Ok? ==> r.value == LiteralValue(s, false)
    ensures r == Err(Empty) <==> s == []
    ensures r == Err(InvalidDigit) <==> BadDigitFirst(s, false, 0, U16_MAX)
  {
    ParseIntMeaning(s, false, 0, U16_MAX);
    match ParseInt(s, false, 0, U16_MAX)
    case Ok(v) => Ok(v)
    case Err(kind) => Err(kind)
  }

  /** `str::parse::<i32>`. */
  function ParseI32(s: string): (r: Result<I32, IntErrorKind>)
    ensures r.Ok? <==> IsLiteral(s, true, I32_MIN, I32_MAX)
    ensures r.Ok? ==> r.value == LiteralValue(s, true)
    ensures r == Err(Empty) <==> s == []
    ensures r == Err(InvalidDigit) <==> BadDigitFirst(s, true, I32_MIN, I32_MAX)
  {
    ParseIntMeaning(s, true, I32_MIN, I32_MAX);
    match ParseInt(s, true, I32_MIN, I32_MAX)
    case Ok(v) => Ok(v)
    case Err(kind) => Err(kind)
  }

  /** `to_string` of a non-negative integer: shortest decimal text, no sign. */
  function NatText(n: nat): (s: string)
    ensures s != [] && AllDigits(s) && Value(s) == n
    ensures s[0] == '0' <==> n == 0
    decreases n
  {
    if n < 10 then [DigitChar(n)]
    else
      var s := NatText(n / 10) + [DigitChar(n % 10)];
      assert s[..|s| - 1] == NatText(n / 10);
      s
  }

  /** Writing one more digit after a positive number's text denotes ten times the number plus that digit. */
  lemma NatTextStep(n: nat, d: nat)
    requires 0 < n && d < 10
    ensures NatText(10 * n + d) == NatText(n) + [DigitChar(d)]
  {
    assert (10 * n + d) / 10 == n && (10 * n + d) % 10 == d;
  }

  /** `to_string` of an `i32`: a minus sign before the magnitude when negative. */
  function I32Text(x: I32): (s: string)
    ensures s != [] && (s[0] == '-' <==> x < 0)
  {
    if x < 0 then "-" + NatText(-(x as int)) else NatText(x)
  }

  /** `u16::to_string` followed by `parse::<u16>` gives the number back. */
  lemma U16TextRoundTrip(n: U16)
    ensures ParseU16(NatText(n)) == Ok(n)
  {
    assert SignAndDigits(NatText(n), false).1 == NatText(n);
  }

  /** `i32::to_string` followed by `parse::<i32>` gives the number back. */
  lemma I32TextRoundTrip(x: I32)
    ensures ParseI32(I32Text(x)) == Ok(x)
  {
    var s := I32Text(x);
    if x < 0 {
      assert SignAndDigits(s, true) == (true, NatText(-(x as int)));
    } else {
      assert SignAndDigits(s, true) == (false, NatText(x));
    }
  }
}
