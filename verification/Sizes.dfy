/** Sizes as text: `Calculator.human_readable` and `ImageCalculator.parse_size`. */
module Sizes {
  import opened Prelude
  import opened Decimal

  datatype Unit = B | KB | MB | GB

  function UnitName(u: Unit): string {
    match u case B => "B" case KB => "KB" case MB => "MB" case GB => "GB"
  }

  function Bytes(u: Unit): nat {
    match u case B => 1 case KB => 1024 case MB => 1_048_576 case GB => 1_073_741_824
  }

  /** The largest unit that fits at least once, GB at most. */
  function UnitFor(size: real): Unit {
    if size < 1024.0 then B else if size < 1_048_576.0 then KB else if size < 1_073_741_824.0 then MB else GB
  }

  /** What `human_readable` prints: the size in its unit, to three decimals. */
  function HumanText(size: real): string {
    Fixed3(size / Bytes(UnitFor(size)) as real) + " " + UnitName(UnitFor(size))
  }

  method HumanReadable(size: real) returns (text: string)
    ensures text == HumanText(size)
  {
    hide Fixed3;
    var left := size;
    for k := 0 to 3
      invariant k == 0 ==> left == size
      invariant k == 1 ==> left == size / 1024.0 && size >= 1024.0
      invariant k == 2 ==> left == size / 1_048_576.0 && size >= 1_048_576.0
      invariant k == 3 ==> left == size / 1_073_741_824.0 && size >= 1_073_741_824.0
    {
      if left < 1024.0 {
        return Fixed3(left) + " " + UnitName(if k == 0 then B else if k == 1 then KB else MB);
      }
      left := left / 1024.0;
    }
    text := Fixed3(left) + " " + UnitName(GB);
  }

  /** What is printed, unit by unit: bytes below 1024, then the size over 1024 once,
      twice or three times, always with three decimals, a space and the unit. */
  lemma HumanUnits(size: real)
    ensures
      var k := 1024.0;
      && (size < k ==> HumanText(size) == Fixed3(size) + " B")
      && (k <= size < k * k ==> HumanText(size) == Fixed3(size / k) + " KB")
      && (k * k <= size < k * k * k ==> HumanText(size) == Fixed3(size / (k * k)) + " MB")
      && (k * k * k <= size ==> HumanText(size) == Fixed3(size / (k * k * k)) + " GB")
  {
    hide Fixed3;
    SpaceAndUnit(B);
    SpaceAndUnit(KB);
    SpaceAndUnit(MB);
    SpaceAndUnit(GB);
    assert forall number: string, u :: number + " " + UnitName(u) == number + (" " + UnitName(u));
  }

  lemma SpaceAndUnit(u: Unit)
    ensures " " + UnitName(u) == match u case B => " B" case KB => " KB" case MB => " MB" case GB => " GB"
  {
  }

  /** A size that falls on a tie: 1088 bytes are 1.0625 KB, printed as 1.062. */
  lemma TieIsEven()
    ensures HumanText(1088.0) == "1.062 KB"
  {
    hide Fixed3, RoundHalfEven, NatText, Padded;
    HumanUnits(1088.0);
    RoundedTo(1062.5, 1062);
    assert Fixed3(1088.0 / 1024.0) == "1.062" by { TieDigits(); }
    assert "1.062" + " KB" == "1.062 KB";
  }

  lemma TieDigits()
    ensures Fixed3(1.0625) == "1.062"
  {
    hide RoundHalfEven, Padded, NatText, Digit;
    RoundedTo(1062.5, 1062);
    ThreeDigits(0, 6, 2);
    OneDigit(1);
    DigitChars();
    assert Thousandths(1062) == NatText(1) + "." + Padded(62, 3);
  }

  // ---------- parse_size ----------

  function Upper(c: char): char {
    if 'a' <= c <= 'z' then c - 'a' + 'A' else c
  }

  predicate IsNumeric(c: char) { IsDigit(c) || c == '.' }

  function NumericPrefix(t: string): (n: nat)
    ensures n <= |t| && (forall i :: 0 <= i < n ==> IsNumeric(t[i])) && (n < |t| ==> !IsNumeric(t[n]))
  {
    if t == "" || !IsNumeric(t[0]) then 0 else 1 + NumericPrefix(t[1..])
  }

  /** The unit that starts a text, in either case. */
  function UnitAt(t: string): Option<Unit> {
    if |t| >= 1 && Upper(t[0]) == 'B' then Some(B)
    else if |t| >= 2 && Upper(t[1]) == 'B' then
      match Upper(t[0]) case 'K' => Some(KB) case 'M' => Some(MB) case 'G' => Some(GB) case _ => None
    else None
  }

  /** The whole bytes of a size text; None where the source raises ValueError. */
  function ParseSize(t: string): Option<int> {
    var n := NumericPrefix(t);
    if n == 0 || UnitAt(t[n..]).None? || Unsigned(t[..n]).None? then None
    else Some((Unsigned(t[..n]).value * Bytes(UnitAt(t[n..]).value) as real).Floor)
  }

  // ---------- what the reader of sizes promises, said without its own parts ----------

  /** The bytes of a unit, by its spelling in either case. */
  ghost predicate Spells(unit: string, bytes: nat) {
    || (unit in {"B", "b"} && bytes == 1)
    || (unit in {"KB", "kB", "Kb", "kb"} && bytes == 1024)
    || (unit in {"MB", "mB", "Mb", "mb"} && bytes == 1024 * 1024)
    || (unit in {"GB", "gB", "Gb", "gb"} && bytes == 1024 * 1024 * 1024)
  }

  lemma UnitIsRead(unit: string, bytes: nat, tail: string)
    requires Spells(unit, bytes)
    ensures UnitAt(unit + tail).Some? && Bytes(UnitAt(unit + tail).value) == bytes
    ensures unit != "" && !IsNumeric((unit + tail)[0])
  {
    var t := unit + tail;
    assert t[0] == unit[0] && (|unit| == 2 ==> t[1] == unit[1]);
  }

  lemma {:induction false} ValueOfBoth(a: string, b: string)
    requires AllDigits(a) && AllDigits(b)
    ensures AllDigits(a + b) && NatValue(a + b) == NatValue(a) * Pow10(|b|) + NatValue(b)
  {
    if b == "" {
      assert a + b == a;
    } else {
      hide NatValue, Pow10;
      var n := |b| - 1;
      ValueOfBoth(a, b[..n]);
      assert a + b == (a + b[..n]) + [b[n]] && b == b[..n] + [b[n]];
      OneMoreDigit(a + b[..n], b[n]);
      OneMoreDigit(b[..n], b[n]);
      OneMorePlace(NatValue(a), NatValue(b[..n]), DigitValue(b[n]), n);
    }
  }

  lemma OneMorePlace(x: nat, y: nat, d: nat, n: nat)
    ensures 10 * (x * Pow10(n) + y) + d == x * Pow10(n + 1) + (10 * y + d)
  {
    var p := Pow10(n);
    assert Pow10(n + 1) == 10 * p;
    assert x * (10 * p) == 10 * (x * p);
  }

  lemma {:induction false} DecimalIsRead(a: string, b: string)
    requires AllDigits(a) && AllDigits(b) && (a != "" || b != "")
    ensures AllDigits(a + b) && Unsigned(a + "." + b) == Some(NatValue(a + b) as real / Pow10(|b|) as real)
  {
    var t := a + "." + b;
    FirstDotIs(a, b);
    assert t[..|a|] == a && t[|a| + 1..] == b;
    ValueOfBoth(a, b);
    DividedByParts(NatValue(a), NatValue(b), Pow10(|b|));
  }

  lemma DividedByParts(x: nat, y: nat, p: nat)
    requires p > 0
    ensures (x * p + y) as real / p as real == x as real + y as real / p as real
  {
    assert (x * p) as real == x as real * p as real;
    assert (x * p + y) as real == (x + 0) as real * p as real + y as real;
  }

  lemma WholeIsRead(a: string)
    requires AllDigits(a) && a != ""
    ensures Unsigned(a) == Some(NatValue(a) as real)
  {
    assert forall i :: 0 <= i < |a| ==> a[i] != '.';
  }

  /** A size text with a decimal point: the digits as one number, over ten to the
      number of decimals, times the unit, rounded down. Whatever follows the unit
      is ignored. */
  lemma {:induction false} DecimalSize(a: string, b: string, unit: string, bytes: nat, tail: string)
    requires AllDigits(a) && AllDigits(b) && (a != "" || b != "") && Spells(unit, bytes)
    ensures AllDigits(a + b) && ParseSize(a + "." + b + unit + tail)
      == Some((NatValue(a + b) as real / Pow10(|b|) as real * bytes as real).Floor)
  {
    hide UnitAt, Spells, Unsigned, NatValue;
    var number := a + "." + b;
    UnitIsRead(unit, bytes, tail);
    DecimalIsRead(a, b);
    assert forall i :: 0 <= i < |number| ==> IsNumeric(number[i]) by { DigitsAndDot(a, b); }
    SizeIsRead(number, unit + tail);
    assert number + (unit + tail) == a + "." + b + unit + tail;
  }

  lemma DigitsAndDot(a: string, b: string)
    requires AllDigits(a) && AllDigits(b)
    ensures var t := a + "." + b; forall i :: 0 <= i < |t| ==> IsNumeric(t[i])
  {
  }

  /** A size text without a decimal point. */
  lemma {:induction false} WholeSize(a: string, unit: string, bytes: nat, tail: string)
    requires AllDigits(a) && a != "" && Spells(unit, bytes)
    ensures ParseSize(a + unit + tail) == Some(NatValue(a) * bytes)
  {
    hide UnitAt, Spells, Unsigned, NatValue;
    UnitIsRead(unit, bytes, tail);
    WholeIsRead(a);
    SizeIsRead(a, unit + tail);
    assert a + (unit + tail) == a + unit + tail;
    FloorOf(NatValue(a) as real * bytes as real, NatValue(a) * bytes);
  }

  /** The number is the longest run of digits and dots at the front, the unit what
      follows it; without either, or if the run is no number, the text is refused. */
  lemma {:induction false} SizeIsRead(number: string, rest: string)
    requires (forall i :: 0 <= i < |number| ==> IsNumeric(number[i])) && (rest == "" || !IsNumeric(rest[0]))
    ensures ParseSize(number + rest) ==
      if number == "" || UnitAt(rest).None? || Unsigned(number).None? then None
      else Some((Unsigned(number).value * Bytes(UnitAt(rest).value) as real).Floor)
  {
    hide IsNumeric, UnitAt, Unsigned;
    NumericPrefixIs(number, rest);
    var t := number + rest;
    assert t[..|number|] == number && t[|number|..] == rest;
  }

  /** Texts that are refused: no digit or dot in front, no unit behind the number,
      or a number with two dots or no digit at all. */
  lemma {:induction false} RefusedSizes(number: string, rest: string)
    requires (forall i :: 0 <= i < |number| ==> IsNumeric(number[i])) && (rest == "" || !IsNumeric(rest[0]))
    ensures number == "" ==> ParseSize(number + rest) == None
    ensures (forall unit, bytes {:trigger Spells(unit, bytes)} :: Spells(unit, bytes) ==> !(unit <= rest)) ==>
      ParseSize(number + rest) == None
    ensures (exists i, j :: 0 <= i < j < |number| && number[i] == '.' && number[j] == '.') ==>
      ParseSize(number + rest) == None
    ensures (forall i :: 0 <= i < |number| ==> number[i] == '.') ==> ParseSize(number + rest) == None
  {
    hide ParseSize, Unsigned, UnitAt, Spells;
    SizeIsRead(number, rest);
    NotANumber(number);
    if UnitAt(rest).Some? { UnitIsSpelled(rest); }
  }

  lemma UnitIsSpelled(rest: string)
    requires UnitAt(rest).Some?
    ensures exists unit, bytes :: Spells(unit, bytes) && unit <= rest
  {
    if Upper(rest[0]) == 'B' {
      assert rest[..1] == "B" || rest[..1] == "b";
      assert Spells(rest[..1], 1);
    } else {
      var unit := rest[..2];
      assert unit == [rest[0], rest[1]];
      assert Spells(unit, 1024) || Spells(unit, 1024 * 1024) || Spells(unit, 1024 * 1024 * 1024);
    }
  }

  lemma NotANumber(number: string)
    ensures (exists i, j :: 0 <= i < j < |number| && number[i] == '.' && number[j] == '.') ==> Unsigned(number).None?
    ensures (forall i :: 0 <= i < |number| ==> number[i] == '.') ==> Unsigned(number).None?
  {
    var n := FirstDot(number);
    if n < |number| {
      var part := number[n + 1..];
      if i, j :| 0 <= i < j < |number| && number[i] == '.' && number[j] == '.' {
        assert part[j - n - 1] == '.';
      }
      if forall i :: 0 <= i < |number| ==> number[i] == '.' {
        assert n == 0;
        assert part != "" ==> part[0] == number[1];
      }
    }
  }

  lemma SomeDigits()
    ensures "824" + "5" == "8245" && NatValue("8245") == 8245
    ensures NatValue("56") == 56
    ensures "1" + "2" == "12" && NatValue("12") == 12
    ensures Pow10(1) == 10
  {
    hide NatValue;
    TwoDigits('5', '6');
    TwoDigits('1', '2');
    TwoDigits('8', '2');
    assert "82" + ['4'] == "824" && "824" + ['5'] == "8245";
    OneMoreDigit("82", '4');
    OneMoreDigit("824", '5');
  }

  /** The three texts that the source names. */
  lemma NamedSizes()
    ensures ParseSize("824.5MB") == Some(864_550_912)
    ensures ParseSize("56KB") == Some(57_344)
    ensures ParseSize("1.2GB") == Some(1_288_490_188)
  {
    hide ParseSize, NatValue, Pow10;
    SomeDigits();
    SomeFloors();
    DecimalSize("824", "5", "MB", 1_048_576, "");
    assert "824" + "." + "5" + "MB" + "" == "824.5MB";
    WholeSize("56", "KB", 1024, "");
    assert "56" + "KB" + "" == "56KB";
    DecimalSize("1", "2", "GB", 1_073_741_824, "");
    assert "1" + "." + "2" + "GB" + "" == "1.2GB";
  }

  lemma SomeFloors()
    ensures (8245 as real / 10 as real * 1_048_576 as real).Floor == 864_550_912
    ensures (12 as real / 10 as real * 1_073_741_824 as real).Floor == 1_288_490_188
  {
  }

  function WithoutSpaces(t: string): string {
    if t == "" then "" else (if t[0] == ' ' then "" else [t[0]]) + WithoutSpaces(t[1..])
  }

  lemma {:induction false} SpacesApart(a: string, b: string)
    requires forall i :: 0 <= i < |a| ==> a[i] != ' '
    ensures WithoutSpaces(a + b) == a + WithoutSpaces(b)
  {
    if a == "" {
      assert a + b == b;
    } else {
      assert (a + b)[1..] == a[1..] + b;
      SpacesApart(a[1..], b);
    }
  }

  lemma NumericPrefixIs(a: string, b: string)
    requires (forall i :: 0 <= i < |a| ==> IsNumeric(a[i])) && (b == "" || !IsNumeric(b[0]))
    ensures NumericPrefix(a + b) == |a|
  {
    var t := a + b;
    var n := NumericPrefix(t);
    assert forall i :: 0 <= i < |a| ==> t[i] == a[i];
    assert b != "" ==> t[|a|] == b[0];
  }

  lemma ThousandthsNumeric(r: nat)
    ensures forall i :: 0 <= i < |Thousandths(r)| ==> IsNumeric(Thousandths(r)[i]) && Thousandths(r)[i] != ' '
    ensures Thousandths(r) != ""
  {
    var a, b := NatText(r / 1000), Padded(r % 1000, 3);
    assert Thousandths(r) == a + "." + b;
  }

  lemma UnitNamesRead(u: Unit)
    ensures UnitAt(UnitName(u)) == Some(u) && WithoutSpaces(" " + UnitName(u)) == UnitName(u)
    ensures UnitName(u) != "" && !IsNumeric(UnitName(u)[0])
  {
    var t := UnitName(u);
    SpacesApart(t, "");
    assert t + "" == t && (" " + t)[1..] == t;
  }

  /** Bytes that come back from printing `n` and parsing the text. */
  function BytesBack(n: nat): int {
    var u := UnitFor(n as real);
    (RoundHalfEven(n as real / Bytes(u) as real * 1000.0) as real / 1000.0 * Bytes(u) as real).Floor
  }

  lemma {:induction false} ParseCompact(r: nat, u: Unit)
    ensures ParseSize(Thousandths(r) + UnitName(u)) == Some((r as real / 1000.0 * Bytes(u) as real).Floor)
  {
    hide Thousandths, UnitAt, UnitName, IsNumeric;
    var digits, unit := Thousandths(r), UnitName(u);
    ThousandthsNumeric(r);
    ThousandthsRead(r);
    UnitNamesRead(u);
    NumericPrefixIs(digits, unit);
    var t := digits + unit;
    assert t[..|digits|] == digits && t[|digits|..] == unit;
  }

  /** Printing a size, dropping the space and parsing it back. */
  lemma {:induction false} PrintThenParse(n: nat)
    ensures ParseSize(WithoutSpaces(HumanText(n as real))) == Some(BytesBack(n))
  {
    hide Thousandths, UnitName, ParseSize, RoundHalfEven;
    var u := UnitFor(n as real);
    var r := RoundHalfEven(n as real / Bytes(u) as real * 1000.0);
    ThousandthsNumeric(r);
    UnitNamesRead(u);
    SpacesApart(Thousandths(r), " " + UnitName(u));
    assert HumanText(n as real) == Thousandths(r) + (" " + UnitName(u));
    ParseCompact(r, u);
  }

  lemma FloorOf(x: real, k: int)
    requires x == k as real
    ensures x.Floor == k
  {
  }

  /** The round trip is off by at most half a thousandth of the unit, plus one
      byte, and exact below 1024. */
  lemma {:induction false} RoundTripError(n: nat)
    ensures -(Bytes(UnitFor(n as real)) as real / 2000.0 + 1.0) <= (BytesBack(n) - n) as real
              <= Bytes(UnitFor(n as real)) as real / 2000.0
    ensures n < 1024 ==> BytesBack(n) == n
  {
    var u := UnitFor(n as real);
    var x := n as real;
    match u
    case B =>
      assert x / 1.0 * 1000.0 == (1000 * n) as real;
      FloorOf(x / 1.0 * 1000.0, 1000 * n);
      assert RoundHalfEven(x / 1.0 * 1000.0) == 1000 * n;
      assert (1000 * n) as real / 1000.0 * 1.0 == x;
    case KB =>
    case MB =>
    case GB =>
  }

  lemma {:induction false} SameUnitMonotone(m: nat, n: nat)
    requires m <= n && UnitFor(m as real) == UnitFor(n as real)
    ensures BytesBack(m) <= BytesBack(n)
  {
    hide RoundHalfEven, UnitFor;
    var u := UnitFor(n as real);
    RoundMonotone(m as real / Bytes(u) as real * 1000.0, n as real / Bytes(u) as real * 1000.0);
  }

  /** Sizes in a unit come back inside the unit's closed range. */
  lemma StaysInUnit(n: nat)
    ensures var u := UnitFor(n as real);
      (u != B ==> Bytes(u) <= BytesBack(n)) && (u != GB ==> BytesBack(n) <= 1024 * Bytes(u))
  {
    hide RoundHalfEven;
    var u := UnitFor(n as real);
    var x := n as real / Bytes(u) as real * 1000.0;
    if u != B { RoundMonotone(1000.0, x); }
    if u != GB { RoundMonotone(x, 1_024_000.0); }
  }

  /** A larger size never comes back smaller, across all unit boundaries. */
  lemma {:induction false} RoundTripMonotone(m: nat, n: nat)
    requires m <= n
    ensures BytesBack(m) <= BytesBack(n)
  {
    if UnitFor(m as real) == UnitFor(n as real) {
      SameUnitMonotone(m, n);
    } else {
      StaysInUnit(m);
      StaysInUnit(n);
    }
  }
}
