/** Lines of text: splitting, joining, and the string methods of Python that
    the two line languages use. */
module Text {

  predicate IsBreak(c: char) { c == '\n' || c == '\r' }

  predicate OneLine(t: string) {
    forall i :: 0 <= i < |t| ==> !IsBreak(t[i])
  }

  /** The length of the first line. */
  function FirstBreak(t: string): (n: nat)
    ensures n <= |t| && OneLine(t[..n]) && (n < |t| ==> IsBreak(t[n]))
  {
    if t == "" || IsBreak(t[0]) then 0
    else
      var n := 1 + FirstBreak(t[1..]);
      assert t[..n] == [t[0]] + t[1..][..n - 1];
      n
  }

  /** The lines of a text file, without their terminators. */
  function SplitLines(t: string): seq<string>
    decreases |t|
  {
    if t == "" then []
    else
      var n := FirstBreak(t);
      [t[..n]] + if n == |t| then [] else SplitLines(t[n + 1..])
  }

  /** Every line followed by a newline. */
  function JoinLines(lines: seq<string>): string {
    if lines == [] then "" else lines[0] + "\n" + JoinLines(lines[1..])
  }

  lemma {:induction false} FirstBreakAt(a: string, b: string)
    requires OneLine(a)
    ensures FirstBreak(a + "\n" + b) == |a|
  {
    var t := a + "\n" + b;
    if a == "" {
      assert t[0] == '\n';
    } else {
      assert t[1..] == a[1..] + "\n" + b && t[0] == a[0];
      FirstBreakAt(a[1..], b);
    }
  }

  lemma SplitFirst(a: string, rest: string)
    requires OneLine(a)
    ensures SplitLines(a + "\n" + rest) == [a] + SplitLines(rest)
  {
    var t := a + "\n" + rest;
    FirstBreakAt(a, rest);
    assert t[..|a|] == a && t[|a| + 1..] == rest;
  }

  /** Splitting undoes joining. */
  lemma {:induction false} SplitJoin(lines: seq<string>, rest: string)
    requires forall i :: 0 <= i < |lines| ==> OneLine(lines[i])
    ensures SplitLines(JoinLines(lines) + rest) == lines + SplitLines(rest)
  {
    hide SplitLines, OneLine;
    if lines == [] {
      assert JoinLines(lines) + rest == rest;
      assert lines + SplitLines(rest) == SplitLines(rest);
    } else {
      var tail := JoinLines(lines[1..]) + rest;
      assert JoinLines(lines) + rest == lines[0] + "\n" + tail;
      SplitFirst(lines[0], tail);
      SplitJoin(lines[1..], rest);
      assert lines + SplitLines(rest) == [lines[0]] + (lines[1..] + SplitLines(rest));
    }
  }

  lemma {:induction false} SplitJoinAll(lines: seq<string>)
    requires forall i :: 0 <= i < |lines| ==> OneLine(lines[i])
    ensures SplitLines(JoinLines(lines)) == lines
  {
    SplitJoin(lines, "");
    assert JoinLines(lines) + "" == JoinLines(lines);
    assert lines + [] == lines;
  }

  /** A line ends at its first line feed or carriage return. */
  lemma {:induction false} LineEnds(a: string, c: char, b: string)
    requires (forall i :: 0 <= i < |a| ==> a[i] != '\n' && a[i] != '\r') && (c == '\n' || c == '\r')
    ensures SplitLines(a + [c] + b) == [a] + SplitLines(b)
    ensures SplitLines(a) == if a == "" then [] else [a]
  {
    hide FirstBreak;
    var t := a + [c] + b;
    assert t[..|a|] == a && t[|a| + 1..] == b && t[|a|] == c;
    FirstBreakIs(t, |a|);
    assert FirstBreak(a) == |a|;
    assert a[..|a|] == a;
  }

  /** A text file whose last line is terminated, or an empty one. */
  predicate Terminated(t: string) {
    t == "" || IsBreak(t[|t| - 1])
  }

  lemma {:induction false} FirstBreakIs(t: string, n: nat)
    requires n < |t| && OneLine(t[..n]) && IsBreak(t[n])
    ensures FirstBreak(t) == n
  {
    hide FirstBreak, IsBreak;
    var m := FirstBreak(t);
    assert forall i :: 0 <= i < n ==> t[..n][i] == t[i];
    assert forall i :: 0 <= i < m ==> t[..m][i] == t[i];
  }

  lemma {:induction false} BreakInside(t: string)
    requires t != "" && Terminated(t)
    ensures FirstBreak(t) < |t|
  {
    hide FirstBreak, IsBreak;
    var n := FirstBreak(t);
    assert forall i :: 0 <= i < n ==> t[..n][i] == t[i];
  }

  /** Appending to a terminated file adds lines and changes none. */
  lemma {:induction false} SplitAppend(a: string, b: string)
    requires Terminated(a)
    ensures SplitLines(a + b) == SplitLines(a) + SplitLines(b)
    decreases |a|
  {
    hide FirstBreak, IsBreak, OneLine;
    if a == "" {
      assert a + b == b;
    } else {
      BreakInside(a);
      var n := FirstBreak(a);
      assert (a + b)[..n] == a[..n] && (a + b)[n + 1..] == a[n + 1..] + b;
      FirstBreakIs(a + b, n);
      SplitAppend(a[n + 1..], b);
    }
  }

  lemma {:induction false} JoinAppend(a: seq<string>, b: seq<string>)
    ensures JoinLines(a + b) == JoinLines(a) + JoinLines(b)
  {
    if a == [] {
      assert a + b == b;
    } else {
      assert (a + b)[1..] == a[1..] + b;
      JoinAppend(a[1..], b);
    }
  }

  // ---------- stripping and splitting ----------

  /** The characters that `str.strip` removes. */
  predicate IsSpace(c: char) {
    || '\t' <= c <= '\r' || 0x1c <= c as int <= 0x20 || c as int == 0x85 || c as int == 0xa0 || c as int == 0x1680
    || 0x2000 <= c as int <= 0x200a || c as int == 0x2028 || c as int == 0x2029 || c as int == 0x202f
    || c as int == 0x205f || c as int == 0x3000
  }

  function LStrip(t: string): string {
    if t != "" && IsSpace(t[0]) then LStrip(t[1..]) else t
  }

  function RStrip(t: string): string {
    if t != "" && IsSpace(t[|t| - 1]) then RStrip(t[..|t| - 1]) else t
  }

  function Strip(t: string): string {
    RStrip(LStrip(t))
  }

  /** A text with no white space at either end is stripped already. */
  lemma StripNothing(t: string)
    requires t != "" && !IsSpace(t[0]) && !IsSpace(t[|t| - 1])
    ensures Strip(t) == t
  {
  }

  lemma {:induction false} LStripBefore(a: string, b: string)
    requires b != "" && !IsSpace(b[0])
    ensures LStrip(a + b) == LStrip(a) + b
  {
    if a == "" {
      assert a + b == b;
    } else {
      assert (a + b)[0] == a[0] && (a + b)[1..] == a[1..] + b;
      if IsSpace(a[0]) { LStripBefore(a[1..], b); }
    }
  }

  lemma {:induction false} RStripAfter(a: string, b: string)
    requires a != "" && !IsSpace(a[|a| - 1])
    ensures RStrip(a + b) == a + RStrip(b)
  {
    if b == "" {
      assert a + b == a;
    } else {
      assert (a + b)[|a + b| - 1] == b[|b| - 1] && (a + b)[..|a + b| - 1] == a + b[..|b| - 1];
      if IsSpace(b[|b| - 1]) { RStripAfter(a, b[..|b| - 1]); }
    }
  }

  lemma {:induction false} RStripHead(c: char, t: string)
    ensures RStrip([c] + t) == if RStrip(t) == "" && IsSpace(c) then "" else [c] + RStrip(t)
  {
    var s := [c] + t;
    if t == "" {
      assert s[..0] == "" && [c] + "" == [c];
    } else {
      assert s[|s| - 1] == t[|t| - 1] && s[..|s| - 1] == [c] + t[..|t| - 1];
      if IsSpace(t[|t| - 1]) { RStripHead(c, t[..|t| - 1]); }
    }
  }

  lemma {:induction false} RStripTwice(t: string)
    ensures RStrip(RStrip(t)) == RStrip(t)
  {
    if t != "" && IsSpace(t[|t| - 1]) { RStripTwice(t[..|t| - 1]); }
  }

  /** Stripping the right first changes nothing. */
  /** Stripping removes exactly the white space at both ends. */
  lemma {:induction false} StripMiddle(a: string, t: string, b: string)
    requires forall i :: 0 <= i < |a| ==> IsSpace(a[i])
    requires forall i :: 0 <= i < |b| ==> IsSpace(b[i])
    requires t != "" && !IsSpace(t[0]) && !IsSpace(t[|t| - 1])
    ensures Strip(a + t + b) == t
  {
    hide IsSpace, Strip;
    LStripMiddle(a, t + b);
    assert a + (t + b) == a + t + b;
    RStripMiddle(t, b);
    StripIsBoth(a + t + b);
  }

  lemma StripIsBoth(t: string)
    ensures Strip(t) == RStrip(LStrip(t))
  {
  }

  lemma {:induction false} LStripMiddle(a: string, t: string)
    requires (forall i :: 0 <= i < |a| ==> IsSpace(a[i])) && t != "" && !IsSpace(t[0])
    ensures LStrip(a + t) == t
  {
    hide IsSpace;
    if a == "" {
      assert a + t == t;
    } else {
      assert (a + t)[1..] == a[1..] + t && (a + t)[0] == a[0];
      LStripMiddle(a[1..], t);
    }
  }

  lemma {:induction false} RStripMiddle(t: string, b: string)
    requires (forall i :: 0 <= i < |b| ==> IsSpace(b[i])) && t != "" && !IsSpace(t[|t| - 1])
    ensures RStrip(t + b) == t
  {
    hide IsSpace;
    if b == "" {
      assert t + b == t;
    } else {
      var n := |b| - 1;
      assert (t + b)[..|t + b| - 1] == t + b[..n] && (t + b)[|t + b| - 1] == b[n];
      RStripMiddle(t, b[..n]);
    }
  }

  /** Among ASCII characters: the space, tab, line feed, vertical tab, form feed,
      carriage return and the four separators. */
  lemma AsciiSpace(c: char)
    requires c as int < 128
    ensures IsSpace(c) <==> c as int in {9, 10, 11, 12, 13, 28, 29, 30, 31, 32}
  {
  }

  lemma {:induction false} StripOfRStrip(t: string)
    ensures Strip(RStrip(t)) == Strip(t)
  {
    if t == "" {
    } else if IsSpace(t[0]) {
      assert t == [t[0]] + t[1..];
      RStripHead(t[0], t[1..]);
      StripOfRStrip(t[1..]);
      var r := RStrip(t[1..]);
      if r != "" { assert ([t[0]] + r)[1..] == r; }
    } else {
      assert t == [t[0]] + t[1..];
      RStripHead(t[0], t[1..]);
      RStripTwice(t);
    }
  }

  lemma {:induction false} StripOfLStrip(t: string)
    ensures Strip(LStrip(t)) == Strip(t)
  {
    if t != "" && IsSpace(t[0]) { StripOfLStrip(t[1..]); }
  }

  /** Stripping keeps every character that is not a space. */
  lemma {:induction false} StripKeeps(t: string, c: char)
    requires !IsSpace(c)
    ensures c in Strip(t) <==> c in t
    decreases |t|
  {
    if t != "" && IsSpace(t[0]) {
      StripKeeps(t[1..], c);
      assert t == [t[0]] + t[1..];
    } else {
      RStripKeeps(t, c);
    }
  }

  lemma {:induction false} RStripKeeps(t: string, c: char)
    requires !IsSpace(c)
    ensures c in RStrip(t) <==> c in t
  {
    if t != "" && IsSpace(t[|t| - 1]) {
      RStripKeeps(t[..|t| - 1], c);
      assert t == t[..|t| - 1] + [t[|t| - 1]];
    }
  }

  /** The first position of a character, or the length. */
  function First(t: string, c: char): (n: nat)
    ensures n <= |t| && (n < |t| ==> t[n] == c) && forall i :: 0 <= i < n ==> t[i] != c
  {
    if t == "" || t[0] == c then 0 else 1 + First(t[1..], c)
  }

  /** The last position of a character, or -1. */
  function Last(t: string, c: char): (n: int)
    ensures -1 <= n < |t| && (n >= 0 ==> t[n] == c) && forall i :: n < i < |t| ==> t[i] != c
  {
    if t == "" then -1 else if t[|t| - 1] == c then |t| - 1 else Last(t[..|t| - 1], c)
  }

  lemma FirstIs(a: string, c: char, b: string)
    requires c !in a
    ensures First(a + [c] + b, c) == |a|
  {
    var t := a + [c] + b;
    assert t[|a|] == c && forall i :: 0 <= i < |a| ==> t[i] == a[i];
  }

  lemma LastWhere(t: string, c: char, n: nat)
    requires n < |t| && t[n] == c && forall i :: n < i < |t| ==> t[i] != c
    ensures Last(t, c) == n
  {
  }

  lemma {:induction false} LastIs(a: string, c: char, b: string)
    requires c !in b
    ensures Last(a + [c] + b, c) == |a|
  {
    hide Last;
    var t := a + [c] + b;
    var tail := t[|a| + 1..];
    assert tail == b;
    forall i | |a| < i < |t| ensures t[i] != c {
      assert t[i] == tail[i - |a| - 1];
    }
    LastWhere(t, c, |a|);
  }
}
