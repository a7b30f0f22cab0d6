/**
 * `u16::from_str_radix(src, 16)` of the Rust standard library, over the bytes of `src`:
 * an optional leading `+` (which must not stand alone), then one or more digits
 * `0-9`, `a-f` or `A-F`, accumulated left to right; the first bad digit or the first
 * step that leaves the `u16` range ends the parse with the matching error kind.
 */
module Radix {
  import opened Base

  /** `core::num::IntErrorKind`, restricted to the kinds an unsigned parse can report. */
  datatype IntErrorKind = Empty | InvalidDigit | PosOverflow

  const PLUS: byte := 0x2B

  predicate IsHexDigit(c: byte) {
    (0x30 <= c <= 0x39) || (0x41 <= c <= 0x46) || (0x61 <= c <= 0x66)
  }

  /** `(c as char).to_digit(16)` for a byte that is a hex digit. */
  function DigitValue(c: byte): (d: nat)
    requires IsHexDigit(c)
    ensures d < 16
  {
    if c <= 0x39 then c - 0x30 else if c <= 0x46 then c - 0x41 + 10 else c - 0x61 + 10
  }

  predicate AllHex(ds: seq<byte>) {
    forall i :: 0 <= i < |ds| ==> IsHexDigit(ds[i])
  }

  function Pow16(n: nat): (p: nat)
    ensures p >= 1
  {
    if n == 0 then 1 else 16 * Pow16(n - 1)
  }

  /** Positional value of a string of hex digits, most significant digit first. */
  function HexValue(ds: seq<byte>): (v: nat)
    requires AllHex(ds)
    ensures v < Pow16(|ds|)
  {
    if ds == [] then 0 else HexValue(ds[..|ds| - 1]) * 16 + DigitValue(ds[|ds| - 1])
  }

  /** The digit string that remains once an optional leading `+` is dropped. */
  function Digits(src: seq<byte>): seq<byte> {
    if |src| > 0 && src[0] == PLUS then src[1..] else src
  }

  /** The digit loop: `acc` is the value of the digits already consumed. */
  function Accumulate(acc: u16, ds: seq<byte>): (r: Result<u16, IntErrorKind>)
    ensures r != Failure(Empty)
    ensures r.Success? ==> acc <= r.value
    ensures r.Success? ==> AllHex(ds)
    decreases |ds|
  {
    if ds == [] then Success(acc)
    else if !IsHexDigit(ds[0]) then Failure(InvalidDigit)
    else if acc * 16 + DigitValue(ds[0]) > 0xFFFF then Failure(PosOverflow)
    else Accumulate(acc * 16 + DigitValue(ds[0]), ds[1..])
  }

  function FromStrRadix16(src: seq<byte>): (r: Result<u16, IntErrorKind>)
    ensures r == Failure(Empty) <==> src == []
    ensures r.Success? <==>
      src != [] && Digits(src) != [] && AllHex(Digits(src)) && HexValue(Digits(src)) <= 0xFFFF
    ensures r.Success? ==> r.value == HexValue(Digits(src))
    ensures src != [] && |Digits(src)| <= 4 && !AllHex(Digits(src)) ==> r == Failure(InvalidDigit)
  {
    if src == [] then Failure(Empty)
    else if src == [PLUS] then Failure(InvalidDigit)
    else
      AccumulateCorrect(0, Digits(src));
      Pow16AtMostFour(|Digits(src)|);
      Accumulate(0, Digits(src))
  }

  /** Reading one more digit on the left scales the value of the rest. */
  lemma {:induction false} HexValueCons(ds: seq<byte>)
    requires ds != [] && AllHex(ds)
    ensures HexValue(ds) == DigitValue(ds[0]) * Pow16(|ds| - 1) + HexValue(ds[1..])
  {
    var n := |ds|;
    if n == 1 {
      assert ds[..0] == [] && ds[1..] == [];
    } else {
      var init, tail := ds[..n - 1], ds[1..];
      assert AllHex(init) && AllHex(tail);
      HexValueCons(init);
      assert init[0] == ds[0] && tail[|tail| - 1] == ds[n - 1];
      assert init[1..] == tail[..|tail| - 1];
      ShiftIn(DigitValue(ds[0]), Pow16(n - 2), HexValue(init[1..]), DigitValue(ds[n - 1]));
    }
  }

  lemma ShiftIn(d: int, p: int, mid: int, e: int)
    ensures (d * p + mid) * 16 + e == d * (16 * p) + (mid * 16 + e)
  {
  }

  /** The digit loop succeeds exactly when every digit is hex and the total fits, and
      then yields the positional value; it never reports `Empty`, and while the digits
      cannot overflow whatever they are, a bad digit is reported as `InvalidDigit`. */
  lemma AccumulateCorrect(acc: u16, ds: seq<byte>)
    ensures var r := Accumulate(acc, ds);
      && r != Failure(Empty)
      && (r.Success? <==> AllHex(ds) && acc * Pow16(|ds|) + HexValue(ds) <= 0xFFFF)
      && (r.Success? ==> r.value == acc * Pow16(|ds|) + HexValue(ds))
      && ((acc + 1) * Pow16(|ds|) <= 0x1_0000 && !AllHex(ds) ==> r == Failure(InvalidDigit))
  {
    AccumulateValue(acc, ds);
    AccumulateBadDigit(acc, ds);
  }

  lemma {:induction false} AccumulateValue(acc: u16, ds: seq<byte>)
    ensures var r := Accumulate(acc, ds);
      && (r.Success? <==> AllHex(ds) && acc * Pow16(|ds|) + HexValue(ds) <= 0xFFFF)
      && (r.Success? ==> r.value == acc * Pow16(|ds|) + HexValue(ds))
    decreases |ds|
  {
    if ds != [] && IsHexDigit(ds[0]) {
      var d := DigitValue(ds[0]);
      var rest := ds[1..];
      var p := Pow16(|rest|);
      assert Pow16(|ds|) == 16 * p;
      HexHead(ds);
      Step(acc, d, p);
      if AllHex(ds) {
        HexValueCons(ds);
        assert acc * Pow16(|ds|) + HexValue(ds) == (acc * 16 + d) * p + HexValue(rest);
      }
      if acc * 16 + d <= 0xFFFF {
        AccumulateValue(acc * 16 + d, rest);
      }
    }
  }

  lemma {:induction false} AccumulateBadDigit(acc: u16, ds: seq<byte>)
    ensures var r := Accumulate(acc, ds);
      && r != Failure(Empty)
      && ((acc + 1) * Pow16(|ds|) <= 0x1_0000 && !AllHex(ds) ==> r == Failure(InvalidDigit))
    decreases |ds|
  {
    if ds != [] && IsHexDigit(ds[0]) {
      var d := DigitValue(ds[0]);
      var p := Pow16(|ds[1..]|);
      assert Pow16(|ds|) == 16 * p;
      HexHead(ds);
      Step(acc, d, p);
      if acc * 16 + d <= 0xFFFF {
        AccumulateBadDigit(acc * 16 + d, ds[1..]);
      }
    }
  }

  /** A digit string behind a hex head digit is all hex exactly when the whole is. */
  lemma HexHead(ds: seq<byte>)
    requires ds != [] && IsHexDigit(ds[0])
    ensures AllHex(ds) <==> AllHex(ds[1..])
  {
    if AllHex(ds[1..]) {
      forall i | 0 <= i < |ds| ensures IsHexDigit(ds[i]) {
        if i > 0 { assert ds[i] == ds[1..][i - 1]; }
      }
    }
  }

  /** Arithmetic of one digit step, with `p` the weight of the digits after it. */
  lemma Step(acc: nat, d: nat, p: nat)
    requires d < 16 && p >= 1
    ensures acc * (16 * p) == (acc * 16) * p
    ensures (acc * 16 + d + 1) * p <= (acc + 1) * (16 * p)
    ensures acc * 16 + d > 0xFFFF ==> (acc + 1) * (16 * p) > 0x1_0000
    ensures acc * 16 + d <= (acc * 16 + d) * p
    ensures (acc * 16 + d) * p == acc * (16 * p) + d * p
  {
    assert (acc + 1) * (16 * p) == (acc * 16 + 16) * p;
  }

  lemma Pow16AtMostFour(n: nat)
    ensures n <= 4 ==> Pow16(n) <= 0x1_0000
  {
    assert Pow16(4) == 0x1_0000;
    if n < 4 { Pow16Monotone(n, 4); }
  }

  lemma {:induction false} Pow16Monotone(m: nat, n: nat)
    requires m <= n
    ensures Pow16(m) <= Pow16(n)
    decreases n - m
  {
    if m < n { Pow16Monotone(m + 1, n); }
  }

  /** The lower-case hex digit of a value below 16. */
  function HexDigit(n: nat): (c: byte)
    requires n < 16
    ensures IsHexDigit(c) && DigitValue(c) == n
  {
    if n < 10 then 0x30 + n else 0x61 + (n - 10)
  }

  /** A `u16` written as four lower-case hex digits, as in the `ffff` halves of `ffff:ffff`. */
  function Hex4(v: u16): (s: seq<byte>)
    ensures |s| == 4 && AllHex(s)
  {
    var q1 := v / 16;
    var q2 := q1 / 16;
    [HexDigit(q2 / 16), HexDigit(q2 % 16), HexDigit(q1 % 16), HexDigit(v % 16)]
  }

  /** Parsing the four digits written for a `u16` gives that `u16` back. */
  lemma Hex4RoundTrip(v: u16)
    ensures FromStrRadix16(Hex4(v)) == Success(v)
  {
    var s := Hex4(v);
    var q1 := v / 16;
    var q2 := q1 / 16;
    Hex4Value(s, q2 / 16, q2 % 16, q1 % 16, v % 16);
    Radix16Digits(v);
    assert Digits(s) == s;
  }

  lemma Radix16Digits(v: u16)
    ensures ((v / 16 / 16 / 16 * 16 + v / 16 / 16 % 16) * 16 + v / 16 % 16) * 16 + v % 16 == v
  {
    var q1 := v / 16;
    var q2 := q1 / 16;
    assert v == q1 * 16 + v % 16;
    assert q1 == q2 * 16 + q1 % 16;
    assert q2 == q2 / 16 * 16 + q2 % 16;
  }

  lemma Hex4Value(s: seq<byte>, a: nat, b: nat, c: nat, d: nat)
    requires |s| == 4 && AllHex(s)
    requires DigitValue(s[0]) == a && DigitValue(s[1]) == b && DigitValue(s[2]) == c && DigitValue(s[3]) == d
    ensures HexValue(s) == ((a * 16 + b) * 16 + c) * 16 + d
  {
    assert s[..3][..2][..1][..0] == [];
    assert HexValue(s[..1]) == a;
    assert HexValue(s[..2]) == a * 16 + b by { assert s[..2][..1] == s[..1]; }
    assert HexValue(s[..3]) == (a * 16 + b) * 16 + c by { assert s[..3][..2] == s[..2]; }
    assert s[..4] == s;
  }
}
