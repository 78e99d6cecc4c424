/** Decimal text: digits of natural numbers, zero padding, and three-decimal
    fixed-point numbers, with the readers that undo them. */
module Decimal {
  import opened Prelude

  predicate IsDigit(c: char) { '0' <= c <= '9' }

  function Digit(d: nat): (c: char)
    requires d < 10
    ensures IsDigit(c) && DigitValue(c) == d
  {
    "0123456789"[d]
  }

  function DigitValue(c: char): (d: nat)
    requires IsDigit(c)
    ensures d < 10
  {
    (c as int) - ('0' as int)
  }

  predicate AllDigits(t: string) {
    forall i :: 0 <= i < |t| ==> IsDigit(t[i])
  }

  function Pow10(n: nat): (p: nat)
    ensures p > 0
  {
    if n == 0 then 1 else 10 * Pow10(n - 1)
  }

  /** The plain digits of a natural number. */
  function NatText(n: nat): (t: string)
    ensures t != "" && AllDigits(t) && NatValue(t) == n
  {
    if n < 10 then [Digit(n)] else NatText(n / 10) + [Digit(n % 10)]
  }

  /** The last `width` digits of `n`, padded with zeros on the left. */
  function Padded(n: nat, width: nat): (t: string)
    ensures |t| == width && AllDigits(t) && (n < Pow10(width) ==> NatValue(t) == n)
  {
    if width == 0 then "" else Padded(n / 10, width - 1) + [Digit(n % 10)]
  }

  function NatValue(t: string): nat
    requires AllDigits(t)
  {
    if t == "" then 0 else 10 * NatValue(t[..|t| - 1]) + DigitValue(t[|t| - 1])
  }

  lemma DigitChars()
    ensures Digit(0) == '0' && Digit(1) == '1' && Digit(2) == '2' && Digit(5) == '5' && Digit(6) == '6'
  {
  }

  lemma OneDigit(d: nat)
    requires d < 10
    ensures NatText(d) == [Digit(d)]
  {
    hide Digit;
  }

  lemma PaddedStep(n: nat, d: nat, width: nat)
    requires d < 10 && width > 0
    ensures Padded(10 * n + d, width) == Padded(n, width - 1) + [Digit(d)]
  {
    hide Digit, NatValue, Pow10, AllDigits;
    assert (10 * n + d) / 10 == n && (10 * n + d) % 10 == d;
  }

  lemma ThreeDigits(a: nat, b: nat, c: nat)
    requires a < 10 && b < 10 && c < 10
    ensures Padded(100 * a + 10 * b + c, 3) == [Digit(a), Digit(b), Digit(c)]
  {
    hide Digit, Padded, NatValue, Pow10, AllDigits;
    PaddedStep(10 * a + b, c, 3);
    PaddedStep(a, b, 2);
    PaddedStep(0, a, 1);
    assert Padded(0, 0) == "";
  }

  lemma OneMoreDigit(t: string, c: char)
    requires AllDigits(t) && IsDigit(c)
    ensures NatValue(t + [c]) == 10 * NatValue(t) + DigitValue(c)
  {
    assert (t + [c])[..|t|] == t;
  }

  lemma NoDigits()
    ensures NatValue("") == 0
  {
  }

  lemma TwoDigits(c: char, d: char)
    requires IsDigit(c) && IsDigit(d)
    ensures AllDigits([c, d]) && NatValue([c, d]) == 10 * DigitValue(c) + DigitValue(d)
  {
    hide NatValue;
    NoDigits();
    OneMoreDigit("", c);
    OneMoreDigit([c], d);
    assert "" + [c] == [c] && [c] + [d] == [c, d];
  }

  lemma FewDigits()
    ensures NatText(0) == "0" && NatText(1500) == "1500"
  {
    assert NatText(15) == NatText(1) + ['5'];
    assert NatText(150) == NatText(15) + ['0'];
    assert NatText(1500) == NatText(150) + ['0'];
  }

  // ---------- three decimals ----------

  /** The nearest integer; a tie goes to the even one. */
  function RoundHalfEven(x: real): (r: int)
    ensures -0.5 <= r as real - x <= 0.5
    ensures x >= 0.0 ==> r >= 0
  {
    var f := x.Floor;
    var d := x - f as real;
    if d < 0.5 || (d == 0.5 && f % 2 == 0) then f else f + 1
  }

  /** Rounding never reorders two numbers. */
  lemma RoundMonotone(x: real, y: real)
    requires x <= y
    ensures RoundHalfEven(x) <= RoundHalfEven(y)
  {
  }

  /** A tie goes to the even neighbour, anything else to the nearest integer. */
  lemma RoundedTo(x: real, n: int)
    ensures RoundHalfEven(x) == n <==>
      (-0.5 < x - n as real < 0.5) || ((x - n as real == 0.5 || x - n as real == -0.5) && n % 2 == 0)
  {
    if x - n as real == 0.5 { assert x.Floor == n; }
    if x - n as real == -0.5 { assert x.Floor == n - 1; }
    if -0.5 < x - n as real < 0.5 { assert x.Floor == n || x.Floor == n - 1; }
  }

  /** A number in thousandths, printed with three decimals. */
  function Thousandths(r: nat): string {
    NatText(r / 1000) + "." + Padded(r % 1000, 3)
  }

  /** Python's `{x:.3f}`. */
  function Fixed3(x: real): string {
    if x < 0.0 then "-" + Thousandths(RoundHalfEven(-x * 1000.0)) else Thousandths(RoundHalfEven(x * 1000.0))
  }

  /** What it prints: a minus sign for negative numbers, the whole part without
      leading zeros, a dot, and three digits. */
  lemma Fixed3Text(x: real)
    ensures
      var r := RoundHalfEven(if x < 0.0 then -x * 1000.0 else x * 1000.0);
      var t := Fixed3(x); var whole := NatText(r / 1000);
      && t == (if x < 0.0 then "-" else "") + whole + "." + t[|t| - 3..]
      && AllDigits(t[|t| - 3..]) && NatValue(t[|t| - 3..]) == r % 1000
      && (whole[0] == '0' ==> whole == "0")
  {
    hide RoundHalfEven, NatText;
    var r := RoundHalfEven(if x < 0.0 then -x * 1000.0 else x * 1000.0);
    NoLeadingZero(r / 1000);
    var part := Padded(r % 1000, 3);
    assert Pow10(3) == 1000;
    assert Fixed3(x) == (if x < 0.0 then "-" else "") + NatText(r / 1000) + "." + part;
    assert Fixed3(x)[|Fixed3(x)| - 3..] == part;
  }

  lemma {:induction false} NoLeadingZero(n: nat)
    ensures NatText(n)[0] == '0' <==> n == 0
    ensures n == 0 ==> NatText(n) == "0"
  {
    if n >= 10 {
      NoLeadingZero(n / 10);
    } else {
      assert NatText(n)[0] == Digit(n);
      assert DigitValue(Digit(n)) == n;
    }
  }

  /** The value that three printed decimals keep of a number. */
  function Kept3(x: real): (y: real)
    ensures -0.0005 <= y - x <= 0.0005
  {
    if x < 0.0 then -(RoundHalfEven(-x * 1000.0) as real / 1000.0) else RoundHalfEven(x * 1000.0) as real / 1000.0
  }

  /** The position of the first dot. */
  function FirstDot(t: string): (n: nat)
    ensures n <= |t| && (forall i :: 0 <= i < n ==> t[i] != '.') && (n < |t| ==> t[n] == '.')
  {
    if t == "" || t[0] == '.' then 0 else 1 + FirstDot(t[1..])
  }

  /** Python's `float` on texts of digits and dots: at most one dot, and at
      least one digit. */
  function Unsigned(t: string): Option<real> {
    var n := FirstDot(t);
    var whole := t[..n];
    if n == |t| then
      if t != "" && AllDigits(t) then Some(NatValue(t) as real) else None
    else
      var part := t[n + 1..];
      if AllDigits(whole) && AllDigits(part) && (whole != "" || part != "")
      then Some(NatValue(whole) as real + NatValue(part) as real / Pow10(|part|) as real)
      else None
  }

  /** Python's `float` on plain decimals with an optional minus sign. */
  function PlainDecimal(t: string): Option<real> {
    if t != "" && t[0] == '-' then
      match Unsigned(t[1..]) case Some(x) => Some(-x) case None => None
    else Unsigned(t)
  }

  lemma FirstDotIs(a: string, b: string)
    requires AllDigits(a)
    ensures FirstDot(a + "." + b) == |a|
  {
    var t := a + "." + b;
    assert t[|a|] == '.';
    assert forall i :: 0 <= i < |a| ==> t[i] == a[i];
  }

  lemma ThousandthsRead(r: nat)
    ensures Unsigned(Thousandths(r)) == Some(r as real / 1000.0)
    ensures Thousandths(r) != "" && Thousandths(r)[0] != '-'
  {
    var a, b := NatText(r / 1000), Padded(r % 1000, 3);
    var t := Thousandths(r);
    FirstDotIs(a, b);
    assert t[..|a|] == a && t[|a| + 1..] == b;
    assert Pow10(3) == 1000;
    assert t[0] == a[0];
    assert NatValue(b) == r % 1000;
    WholeAndRest(r);
  }

  lemma WholeAndRest(r: nat)
    ensures (r / 1000) as real + (r % 1000) as real / 1000.0 == r as real / 1000.0
  {
    assert r == 1000 * (r / 1000) + r % 1000;
    assert r as real == 1000.0 * (r / 1000) as real + (r % 1000) as real;
  }

  /** Reading three printed decimals gives back what was kept. */
  lemma Fixed3Read(x: real)
    ensures PlainDecimal(Fixed3(x)) == Some(Kept3(x))
  {
    hide Unsigned, RoundHalfEven, Thousandths;
    if x < 0.0 {
      var t := Thousandths(RoundHalfEven(-x * 1000.0));
      ThousandthsRead(RoundHalfEven(-x * 1000.0));
      assert ("-" + t)[1..] == t && ("-" + t)[0] == '-';
    } else {
      ThousandthsRead(RoundHalfEven(x * 1000.0));
    }
  }

  // ---------- snapshot ids ----------

  /** The id of a virtual snapshot taken at millisecond `ms`. */
  function VirtualId(ms: nat): string {
    "v" + Padded(ms % 10_000_000, 7)
  }

  /** A virtual id is a 'v' and seven digits: the clock modulo 10^7. */
  lemma VirtualIdText(ms: nat)
    ensures var t := VirtualId(ms);
      && |t| == 8 && t[0] == 'v' && AllDigits(t[1..]) && NatValue(t[1..]) == ms % 10_000_000
  {
    SevenDigits();
    assert VirtualId(ms)[1..] == Padded(ms % 10_000_000, 7);
  }

  predicate IsHex(c: char) { '0' <= c <= '9' || 'a' <= c <= 'f' }

  /** The first eight characters of a UUID. */
  predicate IsPhysicalId(t: string) {
    |t| == 8 && forall i :: 0 <= i < 8 ==> IsHex(t[i])
  }

  /** Two virtual ids agree exactly when their clocks agree modulo 10^7. */
  lemma VirtualIdCollision(a: nat, b: nat)
    ensures VirtualId(a) == VirtualId(b) <==> a % 10_000_000 == b % 10_000_000
  {
    if VirtualId(a) == VirtualId(b) {
      assert VirtualId(a)[1..] == VirtualId(b)[1..];
      assert Padded(a % 10_000_000, 7) == Padded(b % 10_000_000, 7);
      assert Pow10(7) == 10_000_000 by { SevenDigits(); }
    }
  }

  lemma SevenDigits()
    ensures Pow10(7) == 10_000_000
  {
    assert Pow10(3) == 1000;
    assert Pow10(5) == 100_000;
  }

  lemma OneResiduePerWindow(a: nat, b: nat)
    requires a <= b < a + 10_000_000 && a % 10_000_000 == b % 10_000_000
    ensures a == b
  {
    assert b - a == 10_000_000 * (b / 10_000_000 - a / 10_000_000);
  }

  /** Distinct milliseconds in one window of 10^7 give distinct ids. */
  lemma VirtualIdsDistinct(a: nat, b: nat, start: nat)
    requires start <= a < start + 10_000_000 && start <= b < start + 10_000_000 && a != b
    ensures VirtualId(a) != VirtualId(b)
  {
    VirtualIdCollision(a, b);
    if VirtualId(a) == VirtualId(b) {
      OneResiduePerWindow(if a < b then a else b, if a < b then b else a);
    }
  }

  /** Virtual ids, physical ids and "base" are three disjoint kinds of string. */
  lemma IdKindsDisjoint(ms: nat, uuid: string)
    requires IsPhysicalId(uuid)
    ensures VirtualId(ms) != uuid && VirtualId(ms) != "base" && uuid != "base" && uuid != "" && VirtualId(ms) != ""
  {
    assert IsHex(uuid[0]);
    assert VirtualId(ms)[0] == 'v';
  }
}
