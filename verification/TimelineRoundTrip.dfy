/** The reader undoes the writer: what every call means to the reader, exactly
    which calls survive, and the round trip of a whole file. */
module TimelineRoundTrip {
  import opened Prelude
  import opened Decimal
  import opened Text
  import opened Timeline

  /** What a call adds to the parsed file, said without any text. */
  function Meaning(p: Parsed, c: Call): Parsed {
    match c
    case LogSection(name, compressed) =>
      var key := SectionKey(name, compressed);
      p.(sections := Put(p.sections, key, []), current := Some(key))
    case LogStep(step, sec, op) =>
      if p.current.None? then p
      else AddStep(p, p.current.value, StepEntry(Strip(step), Kept3(sec * 1000.0), Colour(op)))
    case LogColor(id, caption) => p.(labels := Put(p.labels, Strip(id), Strip(caption)))
  }

  function MeaningOf(p: Parsed, calls: seq<Call>): Parsed {
    if calls == [] then p else Meaning(MeaningOf(p, calls[..|calls| - 1]), calls[|calls| - 1])
  }

  /** The reader is inside a section. */
  predicate InSection(p: Parsed) {
    p.current.Some? && Find(p.sections, p.current.value) != -1
  }

  // ---------- sections ----------

  lemma BracketsStay(t: string)
    ensures Strip("[" + t + "]") == "[" + t + "]"
  {
    var s := "[" + t + "]";
    assert s[0] == '[' && s[|s| - 1] == ']';
  }

  /** A section line always reads back, whatever its name. */
  lemma SectionReads(fl: FloatReader, p: Parsed, name: string, compressed: bool)
    ensures ParseLine(fl, p, LineOf(LogSection(name, compressed))) == Ok(Meaning(p, LogSection(name, compressed)))
  {
    var key := SectionKey(name, compressed);
    BracketsStay(key);
    var line := "[" + key + "]";
    assert line[0] == '[' && line[|line| - 1] == ']' && line[1..|line| - 1] == key;
  }

  // ---------- colours ----------

  lemma WordStrips(t: string)
    requires t != "" && !IsSpace(t[0]) && !IsSpace(t[|t| - 1])
    ensures Strip(" " + t) == t
  {
    var s := " " + t;
    assert s[0] == ' ' && s[1..] == t;
    assert LStrip(s) == LStrip(t) == t;
  }

  lemma ColourLetters(op: OpType)
    ensures var t := Colour(op); t != "" && forall i :: 0 <= i < |t| ==> 'a' <= t[i] <= 'z'
  {
  }

  lemma ColourIsWord(op: OpType)
    ensures var t := Colour(op);
      t != "" && !IsSpace(t[|t| - 1]) && t[|t| - 1] != ']' && ',' !in t && Strip(" " + t) == t && OneLine(t)
  {
    hide Colour, Strip;
    ColourLetters(op);
    WordStrips(Colour(op));
  }

  /** The line of a colour after stripping. */
  lemma ColorLine(id: string, caption: string)
    ensures Strip(">" + id + ": " + caption) == ">" + id + ":" + RStrip(" " + caption)
    ensures Strip(RStrip(" " + caption)) == Strip(caption)
  {
    var line := ">" + id + ": " + caption;
    var head := ">" + id + ":";
    assert line == head + (" " + caption);
    assert line[0] == '>';
    RStripAfter(head, " " + caption);
    StripOfRStrip(" " + caption);
    assert (" " + caption)[1..] == caption;
  }

  lemma ColorReads(fl: FloatReader, p: Parsed, id: string, caption: string)
    requires ':' !in id
    ensures ParseLine(fl, p, LineOf(LogColor(id, caption))) == Ok(Meaning(p, LogColor(id, caption)))
  {
    hide LStrip, RStrip, Strip, First, Put;
    ColorLine(id, caption);
    var tail := RStrip(" " + caption);
    var line := ">" + id + ":" + tail;
    var rest := line[1..];
    assert line[0] == '>' && rest == id + [':'] + tail;
    FirstIs(id, ':', tail);
    assert rest[..|id|] == id && rest[|id| + 1..] == tail;
    assert LineOf(LogColor(id, caption)) == ">" + id + ": " + caption;
  }

  /** A colour key with a colon is cut at the colon. */
  lemma ColorIsCut(fl: FloatReader, id: string, caption: string)
    requires ':' in id
    ensures var r := ParseLine(fl, NOTHING, LineOf(LogColor(id, caption)));
      r.Ok? && |r.parsed.labels| == 1 && ':' !in r.parsed.labels[0].0
  {
    hide LStrip, RStrip, Strip, First;
    ColorLine(id, caption);
    var tail := RStrip(" " + caption);
    var line := ">" + id + ":" + tail;
    var rest := line[1..];
    assert line[0] == '>' && rest == id + [':'] + tail && rest[|id|] == ':';
    var c := First(rest, ':');
    StripKeeps(rest[..c], ':');
    assert LineOf(LogColor(id, caption)) == ">" + id + ": " + caption;
  }

  /** A colour line reads back its key and caption after every parse so far
      exactly when the key has no colon, because the reader splits at the first
      one; with a colon it fails already on an empty parse. */
  lemma ColorReadsIff(fl: FloatReader, id: string, caption: string)
    ensures (forall p :: ParseLine(fl, p, LineOf(LogColor(id, caption))) == Ok(Meaning(p, LogColor(id, caption))))
      <==> ':' !in id
    ensures ParseLine(fl, NOTHING, LineOf(LogColor(id, caption))) == Ok(Meaning(NOTHING, LogColor(id, caption)))
      <==> ':' !in id
  {
    hide Strip, LineOf, ParseLine;
    if ':' in id {
      ColorIsCut(fl, id, caption);
      StripKeeps(id, ':');
    } else {
      forall p { ColorReads(fl, p, id, caption); }
    }
  }

  // ---------- steps ----------

  /** The step name does not look like a comment or a colour line. */
  predicate PlainName(step: string) {
    Strip(step) == "" || (Strip(step)[0] != '#' && Strip(step)[0] != '>')
  }

  function Tail(sec: real, op: OpType): string {
    ", " + Fixed3(sec * 1000.0) + ", " + Colour(op)
  }

  lemma Regroup(a: string, b: string, c: string, d: string, e: string)
    ensures a + b + c + d + e == a + (b + c + d + e)
  {
  }

  lemma {:induction false} StepText(step: string, sec: real, op: OpType)
    ensures LineOf(LogStep(step, sec, op)) == step + Tail(sec, op)
  {
    hide Fixed3, Colour;
    Regroup(step, ", ", Fixed3(sec * 1000.0), ", ", Colour(op));
  }

  lemma TailEnds(sec: real, op: OpType)
    ensures var t := Tail(sec, op); t != "" && t[0] == ',' && !IsSpace(t[|t| - 1]) && t[|t| - 1] != ']'
  {
    hide Fixed3, Colour;
    ColourIsWord(op);
  }

  /** The line of a step after stripping: only the left of the name is touched. */
  lemma {:induction false} StepLine(step: string, sec: real, op: OpType)
    ensures Strip(LineOf(LogStep(step, sec, op))) == LStrip(step) + Tail(sec, op)
  {
    hide LineOf, Tail, LStrip;
    StepText(step, sec, op);
    TailEnds(sec, op);
    LStripBefore(step, Tail(sec, op));
  }

  lemma {:induction false} RStripEmpty(t: string)
    requires t == "" || !IsSpace(t[0])
    ensures RStrip(t) == "" <==> t == ""
    ensures t != "" ==> RStrip(t)[0] == t[0]
  {
    if t != "" && IsSpace(t[|t| - 1]) { RStripEmpty(t[..|t| - 1]); }
  }

  lemma {:induction false} LStripFront(t: string)
    ensures LStrip(t) == "" || !IsSpace(LStrip(t)[0])
  {
    if t != "" && IsSpace(t[0]) { LStripFront(t[1..]); }
  }

  /** The stripped line starts with the first character of the stripped name,
      or with a comma if the name is blank. */
  lemma StepLineStart(step: string, sec: real, op: OpType)
    ensures var line := LStrip(step) + Tail(sec, op);
      line != "" && line[0] == if Strip(step) == "" then ',' else Strip(step)[0]
    ensures var line := LStrip(step) + Tail(sec, op); line[|line| - 1] != ']'
  {
    hide Tail;
    LStripFront(step);
    RStripEmpty(LStrip(step));
    TailEnds(sec, op);
  }

  lemma {:induction false} DigitsAreWord(sec: real)
    ensures var t := Fixed3(sec); t != "" && ',' !in t && Strip(" " + t) == t
  {
    ThousandthsIsWord(RoundHalfEven(if sec < 0.0 then -sec * 1000.0 else sec * 1000.0));
    var t := Fixed3(sec);
    LStripBefore(" ", t);
    assert LStrip(" ") == "" by { assert " "[1..] == ""; }
    assert "" + t == t;
  }

  lemma ThousandthsIsWord(r: nat)
    ensures var t := Thousandths(r); t != "" && ',' !in t && !IsSpace(t[0]) && !IsSpace(t[|t| - 1])
  {
    var a, b := NatText(r / 1000), Padded(r % 1000, 3);
    assert Thousandths(r) == a + "." + b;
    assert IsDigit(a[0]) && IsDigit(b[2]);
  }

  /** The two last commas of a step line are the two the writer put there. */
  lemma StepSplits(q: string, sec: real, op: OpType)
    ensures var line := q + Tail(sec, op); var num := Fixed3(sec * 1000.0);
      && Last(line, ',') == |q| + 2 + |num|
      && Last(line[..|q| + 2 + |num|], ',') == |q|
      && line[..|q|] == q && line[|q| + 1..|q| + 2 + |num|] == " " + num
      && line[|q| + 3 + |num|..] == " " + Colour(op)
  {
    hide Fixed3, Colour, Last;
    var num, word := Fixed3(sec * 1000.0), Colour(op);
    var line := q + Tail(sec, op);
    DigitsAreWord(sec * 1000.0);
    ColourIsWord(op);
    var front := q + ", " + num;
    assert line == front + [','] + (" " + word);
    LastIs(front, ',', " " + word);
    assert line[..|front|] == front == q + [','] + (" " + num);
    LastIs(q, ',', " " + num);
  }

  /** Inside a section a step line with a plain name reads back: stripped name,
      three decimals, colour; commas in the name do no harm. */
  lemma StepReads(fl: FloatReader, p: Parsed, step: string, sec: real, op: OpType)
    requires ReadsDecimals(fl) && InSection(p) && PlainName(step)
    ensures ParseLine(fl, p, LineOf(LogStep(step, sec, op))) == Ok(Meaning(p, LogStep(step, sec, op)))
  {
    hide Fixed3, Colour, Last, Find, Put, LStrip, RStrip, LineOf;
    StepLine(step, sec, op);
    StepLineStart(step, sec, op);
    var line := LStrip(step) + Tail(sec, op);
    StepSplits(LStrip(step), sec, op);
    DigitsAreWord(sec * 1000.0);
    ColourIsWord(op);
    Fixed3Read(sec * 1000.0);
    StripOfLStrip(step);
    assert ParseLine(fl, p, LineOf(LogStep(step, sec, op))) == ParseStep(fl, p, line);
  }

  lemma StepIsNew(p: Parsed, step: StepEntry)
    requires InSection(p)
    ensures AddStep(p, p.current.value, step).sections != p.sections
  {
    var i := Find(p.sections, p.current.value);
    var q := AddStep(p, p.current.value, step);
    assert |q.sections[i].1| == |p.sections[i].1| + 1;
  }

  /** A name that looks like a comment or a colour adds no step. */
  lemma MarkedNameAddsNothing(fl: FloatReader, p: Parsed, step: string, sec: real, op: OpType)
    requires !PlainName(step)
    ensures var r := ParseLine(fl, p, LineOf(LogStep(step, sec, op))); r.Ok? ==> r.parsed.sections == p.sections
  {
    hide LStrip, RStrip, LineOf, Tail, First, Put, ParseStep, Strip;
    StepLine(step, sec, op);
    StepLineStart(step, sec, op);
  }

  /** Inside a section a step survives exactly when its stripped name starts
      with neither '#' nor '>'; otherwise it is dropped, or read as a colour. */
  lemma StepReadsIff(fl: FloatReader, p: Parsed, step: string, sec: real, op: OpType)
    requires ReadsDecimals(fl) && InSection(p)
    ensures ParseLine(fl, p, LineOf(LogStep(step, sec, op))) == Ok(Meaning(p, LogStep(step, sec, op)))
      <==> PlainName(step)
  {
    hide ParseLine, LineOf, PlainName, AddStep, Strip, Colour, Kept3;
    if PlainName(step) {
      StepReads(fl, p, step, sec, op);
    } else {
      MarkedNameAddsNothing(fl, p, step, sec, op);
      StepIsNew(p, StepEntry(Strip(step), Kept3(sec * 1000.0), Colour(op)));
    }
  }

  // ---------- whole files ----------

  /** A call that the file format can carry: one line of text, a plain step
      name, a colour key without a colon. */
  predicate Carried(c: Call) {
    match c
    case LogSection(name, _) => OneLine(name)
    case LogStep(step, _, _) => OneLine(step) && PlainName(step)
    case LogColor(id, caption) => OneLine(id) && OneLine(caption) && ':' !in id
  }

  /** No step before the first section. */
  predicate StepsCovered(calls: seq<Call>) {
    forall i :: 0 <= i < |calls| && calls[i].LogStep? ==> exists j :: 0 <= j < i && calls[j].LogSection?
  }

  lemma PutFinds<V>(d: Dict<V>, k: string, v: V)
    ensures Find(Put(d, k, v), k) != -1
    ensures forall x :: Find(d, x) != -1 ==> Find(Put(d, k, v), x) != -1
  {
    var e := Put(d, k, v);
    var at := if Find(d, k) == -1 then |d| else Find(d, k);
    assert e[at].0 == k;
    forall x | Find(d, x) != -1 ensures Find(e, x) != -1 {
      assert e[Find(d, x)].0 == x;
    }
  }

  lemma AddStepKeeps(p: Parsed, step: StepEntry)
    requires InSection(p)
    ensures InSection(AddStep(p, p.current.value, step))
  {
    var i := Find(p.sections, p.current.value);
    PutFinds(p.sections, p.current.value, p.sections[i].1 + [step]);
  }

  lemma {:induction false} SectionOpens(p: Parsed, calls: seq<Call>, j: nat)
    requires j < |calls| && calls[j].LogSection?
    ensures InSection(MeaningOf(p, calls))
  {
    hide Strip, Colour, Kept3, Find, Put, AddStep;
    var n := |calls| - 1;
    var q := MeaningOf(p, calls[..n]);
    match calls[n] {
      case LogSection(name, compressed) => PutFinds(q.sections, SectionKey(name, compressed), []);
      case LogColor(id, caption) => SectionOpens(p, calls[..n], j);
      case LogStep(step, sec, op) =>
        SectionOpens(p, calls[..n], j);
        AddStepKeeps(q, StepEntry(Strip(step), Kept3(sec * 1000.0), Colour(op)));
    }
  }

  lemma CallReads(fl: FloatReader, p: Parsed, c: Call)
    requires ReadsDecimals(fl) && Carried(c) && (c.LogStep? ==> InSection(p))
    ensures ParseLine(fl, p, LineOf(c)) == Ok(Meaning(p, c))
  {
    match c
    case LogSection(name, compressed) => SectionReads(fl, p, name, compressed);
    case LogStep(step, sec, op) => StepReads(fl, p, step, sec, op);
    case LogColor(id, caption) => ColorReads(fl, p, id, caption);
  }

  lemma {:induction false} StaysInSection(p: Parsed, calls: seq<Call>)
    requires InSection(p)
    ensures InSection(MeaningOf(p, calls))
  {
    hide Strip, Colour, Kept3, Find, Put, AddStep, InSection;
    if calls != [] {
      var n := |calls| - 1;
      StaysInSection(p, calls[..n]);
      MeaningKeepsSection(MeaningOf(p, calls[..n]), calls[n]);
    }
  }

  lemma MeaningKeepsSection(p: Parsed, c: Call)
    requires InSection(p)
    ensures InSection(Meaning(p, c))
  {
    hide Strip, Colour, Kept3, Find, Put, AddStep;
    match c
    case LogSection(name, compressed) => PutFinds(p.sections, SectionKey(name, compressed), []);
    case LogColor(id, caption) =>
    case LogStep(step, sec, op) => AddStepKeeps(p, StepEntry(Strip(step), Kept3(sec * 1000.0), Colour(op)));
  }

  /** Reading the written lines after any lines before gives what the calls meant. */
  lemma {:induction false} LinesRoundTrip(fl: FloatReader, p: Parsed, calls: seq<Call>)
    requires ReadsDecimals(fl) && (InSection(p) || StepsCovered(calls))
    requires forall i :: 0 <= i < |calls| ==> Carried(calls[i])
    ensures ParseAll(fl, p, LinesOf(calls)) == Ok(MeaningOf(p, calls))
  {
    hide LineOf, ParseLine, Meaning, InSection;
    if calls != [] {
      var n := |calls| - 1;
      if StepsCovered(calls) { CoveredPrefix(calls); }
      LinesRoundTrip(fl, p, calls[..n]);
      assert LinesOf(calls)[..n] == LinesOf(calls[..n]);
      if calls[n].LogStep? {
        if InSection(p) {
          StaysInSection(p, calls[..n]);
        } else {
          var j :| 0 <= j < n && calls[j].LogSection?;
          SectionOpens(p, calls[..n], j);
        }
      }
      CallReads(fl, MeaningOf(p, calls[..n]), calls[n]);
    }
  }

  lemma CoveredPrefix(calls: seq<Call>)
    requires calls != [] && StepsCovered(calls)
    ensures StepsCovered(calls[..|calls| - 1])
  {
    var n := |calls| - 1;
    forall i | 0 <= i < n && calls[i].LogStep? ensures exists j :: 0 <= j < i && calls[..n][j].LogSection? {
      var j :| 0 <= j < i && calls[j].LogSection?;
      assert calls[..n][j].LogSection?;
    }
  }

  lemma {:induction false} NoSectionYet(p: Parsed, calls: seq<Call>)
    requires forall j :: 0 <= j < |calls| ==> calls[j].LogColor?
    ensures MeaningOf(p, calls).sections == p.sections && MeaningOf(p, calls).current == p.current
  {
    if calls != [] { NoSectionYet(p, calls[..|calls| - 1]); }
  }

  lemma StepOutsideCrashes(fl: FloatReader, p: Parsed, step: string, sec: real, op: OpType)
    requires !InSection(p) && PlainName(step)
    ensures ParseLine(fl, p, LineOf(LogStep(step, sec, op))) == KeyError
  {
    hide Fixed3, Colour, Last, LStrip, RStrip, LineOf;
    StepLine(step, sec, op);
    StepLineStart(step, sec, op);
    StepSplits(LStrip(step), sec, op);
  }

  lemma {:induction false} UncoveredStepCrashes(fl: FloatReader, p: Parsed, calls: seq<Call>)
    requires ReadsDecimals(fl) && !InSection(p) && !StepsCovered(calls)
    requires forall i :: 0 <= i < |calls| ==> Carried(calls[i])
    ensures ParseAll(fl, p, LinesOf(calls)) == KeyError
  {
    hide LineOf, ParseLine, Meaning, PlainName, InSection;
    var n := |calls| - 1;
    var i :| 0 <= i < |calls| && calls[i].LogStep? && !exists j :: 0 <= j < i && calls[j].LogSection?;
    assert LinesOf(calls)[..n] == LinesOf(calls[..n]);
    if StepsCovered(calls[..n]) {
      LinesRoundTrip(fl, p, calls[..n]);
      OnlyColours(calls, i);
      NoSectionYet(p, calls[..n]);
      SameSection(p, MeaningOf(p, calls[..n]));
      StepOutsideCrashes(fl, MeaningOf(p, calls[..n]), calls[n].step, calls[n].sec, calls[n].op);
    } else {
      UncoveredStepCrashes(fl, p, calls[..n]);
    }
  }

  lemma SameSection(p: Parsed, q: Parsed)
    requires p.sections == q.sections && p.current == q.current
    ensures InSection(p) <==> InSection(q)
  {
  }

  /** Before the first uncovered step there are only colours. */
  lemma OnlyColours(calls: seq<Call>, i: nat)
    requires i < |calls| && calls[i].LogStep? && !exists j :: 0 <= j < i && calls[j].LogSection?
    requires StepsCovered(calls[..|calls| - 1])
    ensures i == |calls| - 1 && forall j :: 0 <= j < i ==> calls[..i][j].LogColor?
  {
    var n := |calls| - 1;
    assert forall h :: 0 <= h < n ==> calls[..n][h] == calls[h];
    forall j | 0 <= j < n && j <= i ensures !calls[j].LogStep? {
      assert forall h :: 0 <= h < j ==> !calls[..n][h].LogSection?;
      assert !calls[..n][j].LogStep?;
    }
    forall j | 0 <= j < i ensures calls[..i][j].LogColor? {
      assert !calls[j].LogSection? && !calls[j].LogStep?;
    }
  }

  /** Among calls that lines can carry, and after any lines before, the round
      trip works exactly when the reader is inside a section already or no step
      comes before the first one; otherwise it raises KeyError. */
  lemma {:induction false} RoundTripIff(fl: FloatReader, p: Parsed, calls: seq<Call>)
    requires ReadsDecimals(fl) && forall i :: 0 <= i < |calls| ==> Carried(calls[i])
    ensures ParseAll(fl, p, LinesOf(calls))
      == if InSection(p) || StepsCovered(calls) then Ok(MeaningOf(p, calls)) else KeyError
  {
    hide ParseAll, StepsCovered, Carried, LinesOf, InSection;
    if InSection(p) || StepsCovered(calls) {
      LinesRoundTrip(fl, p, calls);
    } else {
      UncoveredStepCrashes(fl, p, calls);
    }
  }

  lemma {:induction false} ParseAppend(fl: FloatReader, p: Parsed, a: seq<string>, b: seq<string>)
    ensures var r := ParseAll(fl, p, a); ParseAll(fl, p, a + b) == if r.Ok? then ParseAll(fl, r.parsed, b) else r
  {
    hide ParseLine;
    if b == [] {
      assert a + b == a;
    } else {
      assert (a + b)[..|a + b| - 1] == a + b[..|b| - 1];
      ParseAppend(fl, p, a, b[..|b| - 1]);
    }
  }

  lemma HeaderIsComment(fl: FloatReader, p: Parsed, runId: nat, created: string)
    ensures ParseAll(fl, p, Header(runId, created)) == Ok(p)
  {
    var h := Header(runId, created);
    forall i | 0 <= i < 3 ensures Skipped(h[i]) {
      assert h[i][0] == '#';
      RStripEmpty(h[i]);
    }
    hide ParseLine, Skipped, Header;
    assert h[..3][..2] == h[..2] && h[..2][..1] == h[..1] && h[..1][..0] == [] && h[..3] == h;
    SkippedLine(fl, p, h[0]);
    SkippedLine(fl, p, h[1]);
    SkippedLine(fl, p, h[2]);
    assert ParseAll(fl, p, h[..1]) == Ok(p);
    assert ParseAll(fl, p, h[..2]) == Ok(p);
  }

  lemma TwoParts(a: string, b: string)
    requires OneLine(a) && OneLine(b)
    ensures OneLine(a + b)
  {
  }

  lemma {:induction false} LineOfCarried(c: Call)
    requires Carried(c)
    ensures OneLine(LineOf(c))
  {
    match c {
      case LogSection(name, compressed) => TwoParts("[" + SectionKey(name, compressed), "]");
      case LogColor(id, caption) => TwoParts(">" + id + ": ", caption);
      case LogStep(step, sec, op) => StepIsOneLine(step, sec, op);
    }
  }

  lemma {:induction false} StepIsOneLine(step: string, sec: real, op: OpType)
    requires OneLine(step)
    ensures OneLine(LineOf(LogStep(step, sec, op)))
  {
    hide LineOf, Tail;
    StepText(step, sec, op);
    TailIsOneLine(sec, op);
    TwoParts(step, Tail(sec, op));
  }

  lemma {:induction false} TailIsOneLine(sec: real, op: OpType)
    ensures OneLine(Tail(sec, op))
  {
    hide Colour, Fixed3;
    FixedIsOneLine(sec * 1000.0);
    ColourIsWord(op);
  }

  lemma FixedIsOneLine(x: real)
    ensures OneLine(Fixed3(x))
  {
    ThousandthsOneLine(RoundHalfEven(if x < 0.0 then -x * 1000.0 else x * 1000.0));
  }

  lemma ThousandthsOneLine(r: nat)
    ensures OneLine(Thousandths(r))
  {
    var a, b := NatText(r / 1000), Padded(r % 1000, 3);
    assert OneLine(a) && OneLine(b);
  }

  /** What the reader makes of carried calls appended after an earlier parse. */
  function Continued(before: ParseResult, calls: seq<Call>): ParseResult {
    match before
    case Ok(p) => if InSection(p) || StepsCovered(calls) then Ok(MeaningOf(p, calls)) else KeyError
    case KeyError => KeyError
    case ValueError => ValueError
  }

  /** The round trip of a whole file, appended with its header to any terminated
      text: it parses to what the text and then the calls meant, if the text ends
      inside a section or no step precedes the first one; otherwise the reader
      raises KeyError, or the exception that the text raises already. */
  lemma {:induction false} FileRoundTrip(
    fl: FloatReader, existing: string, runId: nat, created: string, calls: seq<Call>)
    requires ReadsDecimals(fl) && OneLine(created) && Terminated(existing)
    requires forall i :: 0 <= i < |calls| ==> Carried(calls[i])
    ensures
      ParseAll(fl, NOTHING, SplitLines(existing + (JoinLines(Header(runId, created)) + JoinLines(LinesOf(calls)))))
        == Continued(ParseAll(fl, NOTHING, SplitLines(existing)), calls)
  {
    var h, lines := Header(runId, created), LinesOf(calls);
    HeaderOneLine(runId, created);
    forall i | 0 <= i < |lines| ensures OneLine(lines[i]) { LineOfCarried(calls[i]); }
    hide SplitLines, JoinLines, Header, LinesOf, ParseAll, MeaningOf, StepsCovered, Carried, InSection, Terminated;
    SplitAppend(existing, JoinLines(h) + JoinLines(lines));
    SplitJoin(h, JoinLines(lines));
    SplitJoinAll(lines);
    ParseAppend(fl, NOTHING, SplitLines(existing), h + lines);
    var before := ParseAll(fl, NOTHING, SplitLines(existing));
    if before.Ok? {
      HeaderIsComment(fl, before.parsed, runId, created);
      ParseAppend(fl, before.parsed, h, lines);
      RoundTripIff(fl, before.parsed, calls);
    }
  }

  lemma LinesTogether(existing: string, header: string, calls: seq<Call>)
    ensures existing + header + JoinLines(LinesOf(DefaultColors())) + JoinLines(LinesOf(calls))
      == existing + (header + JoinLines(LinesOf(DefaultColors() + calls)))
  {
    hide LineOf, JoinLines, DefaultColors;
    var a, b := LinesOf(DefaultColors()), LinesOf(calls);
    assert LinesOf(DefaultColors() + calls) == a + b;
    JoinAppend(a, b);
  }

  /** The writer as the benchmark script uses it: open the file for appending,
      write the default colours, then log the calls with flushes anywhere. */
  method WriteFile(existing: string, runId: nat, created: string, calls: seq<Call>, flushAfter: set<nat>)
    returns (text: string)
    ensures text == existing + (JoinLines(Header(runId, created)) + JoinLines(LinesOf(DefaultColors() + calls)))
  {
    hide JoinLines, Header, LinesOf, DefaultColors;
    var writer := new TimelineManager(existing, runId, created);
    EmptyJoin();
    writer.LogDefaultColor();
    assert writer.writeCache == LinesOf(DefaultColors());
    writer.Flush();
    assert writer.Whole() == existing + JoinLines(Header(runId, created)) + JoinLines(LinesOf(DefaultColors()));
    writer.WriteAll(calls, flushAfter);
    LinesTogether(existing, JoinLines(Header(runId, created)), calls);
    text := writer.file;
  }

  /** Writer and reader together: parse the file that is left. */
  method WriteThenRead(
    fl: FloatReader, existing: string, runId: nat, created: string, calls: seq<Call>, flushAfter: set<nat>)
    returns (r: ParseResult)
    requires ReadsDecimals(fl) && OneLine(created) && Terminated(existing)
    requires forall i :: 0 <= i < |calls| ==> Carried(calls[i])
    ensures r == Continued(ParseAll(fl, NOTHING, SplitLines(existing)), DefaultColors() + calls)
    ensures StepsCovered(DefaultColors() + calls) <==> StepsCovered(calls)
  {
    ColoursCoverNothing(calls);
    DefaultsCarried(calls);
    hide SplitLines, JoinLines, Header, LinesOf, ParseAll, MeaningOf, StepsCovered, Carried, DefaultColors, Continued;
    hide Terminated;
    var text := WriteFile(existing, runId, created, calls, flushAfter);
    FileRoundTrip(fl, existing, runId, created, DefaultColors() + calls);
    r := ParseTimelineFile(fl, text);
  }

  const OP_TYPES := [SnapshotOp, RestoreOp, NetworkOp, InternalOp, WaitOp, FailureOp]

  /** The k-th default colour: both texts are words of their own. */
  lemma DefaultColour(k: nat)
    requires k < 6
    ensures |DefaultColors()| == |OP_TYPES| == 6
    ensures var c := DefaultColors()[k];
      && c == LogColor(Colour(OP_TYPES[k]), OpName(OP_TYPES[k])) && Carried(c)
      && Strip(c.id) == c.id && Strip(c.caption) == c.caption
    ensures forall j :: 0 <= j < 6 && j != k ==> OP_TYPES[j] != OP_TYPES[k]
  {
    hide Strip, OneLine;
    WordOfLetters(Colour(OP_TYPES[k]));
    WordOfLetters(OpName(OP_TYPES[k]));
  }

  lemma WordOfLetters(t: string)
    requires t != "" && forall i :: 0 <= i < |t| ==> 'A' <= t[i] <= 'Z' || 'a' <= t[i] <= 'z'
    ensures Strip(t) == t && OneLine(t) && ':' !in t
  {
    hide Strip;
    StripNothing(t);
  }

  lemma ColoursDiffer(a: OpType, b: OpType)
    requires a != b
    ensures Colour(a) != Colour(b)
  {
    ColourInitial(a);
    ColourInitial(b);
  }

  /** Two letters tell the colours apart. */
  lemma ColourInitial(a: OpType)
    ensures var t := Colour(a);
      |t| >= 4 && (t[0], t[3]) == match a
        case SnapshotOp => ('b', 'e') case RestoreOp => ('g', 'e') case NetworkOp => ('p', 'k')
        case InternalOp => ('p', 'p') case WaitOp => ('o', 'n') case FailureOp => ('g', 'y')
  {
  }

  lemma DefaultsCarried(calls: seq<Call>)
    requires forall i :: 0 <= i < |calls| ==> Carried(calls[i])
    ensures var all := DefaultColors() + calls; forall i :: 0 <= i < |all| ==> Carried(all[i])
  {
    hide Carried, DefaultColors, Colour, OpName, OP_TYPES, Strip;
    DefaultColour(0);
    forall i | 0 <= i < 6 ensures Carried(DefaultColors()[i]) { DefaultColour(i); }
  }

  lemma ColoursCoverNothing(calls: seq<Call>)
    ensures StepsCovered(DefaultColors() + calls) <==> StepsCovered(calls)
  {
    var ds := DefaultColors();
    var all, n := ds + calls, |ds|;
    assert forall i :: 0 <= i < n ==> ds[i].LogColor?;
    forall i | 0 <= i < |calls| && calls[i].LogStep?
      ensures (exists j :: 0 <= j < i && calls[j].LogSection?)
        <==> (exists j :: 0 <= j < n + i && all[j].LogSection?)
    {
      if j :| 0 <= j < i && calls[j].LogSection? { assert all[n + j].LogSection?; }
      if j :| 0 <= j < n + i && all[j].LogSection? { assert j >= n && calls[j - n].LogSection?; }
    }
    if StepsCovered(calls) {
      forall i | 0 <= i < |all| && all[i].LogStep? ensures exists j :: 0 <= j < i && all[j].LogSection? {
        assert i >= n && calls[i - n].LogStep?;
      }
    }
    if StepsCovered(all) {
      forall i | 0 <= i < |calls| && calls[i].LogStep? ensures exists j :: 0 <= j < i && calls[j].LogSection? {
        assert all[n + i].LogStep?;
      }
    }
  }

  lemma HeaderOneLine(runId: nat, created: string)
    requires OneLine(created)
    ensures forall i :: 0 <= i < 3 ==> OneLine(Header(runId, created)[i])
  {
    assert OneLine(NatText(runId));
    var h := Header(runId, created);
    assert OneLine("# Timeline Data for RunID ") && OneLine("# Created at UTC ");
  }

  // ---------- what the file looks like ----------

  /** The comment lines at the start of every file. */
  lemma HeaderText(created: string)
    ensures Header(1500, created) == [
      "# Timeline Data for RunID 1500",
      "# Created at UTC " + created,
      "# Duration unit is milliseconds(ms)"]
  {
    FewDigits();
    assert "# Timeline Data for RunID " + "1500" == "# Timeline Data for RunID 1500";
  }

  /** The lines of some calls, written out. */
  lemma SomeLines()
    ensures LineOf(LogSection("run", false)) == "[run]" && LineOf(LogSection("run", true)) == "[*run]"
    ensures LineOf(LogStep("a, b", 0.0015, RestoreOp)) == "a, b, 1.500, green"
    ensures LineOf(LogColor("teal", "idle")) == ">teal: idle"
  {
    hide Fixed3;
    Fifteen();
    assert "a, b" + ", " + "1.500" + ", " + "green" == "a, b, 1.500, green";
    assert "[" + ("*" + "run") + "]" == "[*run]" && "[" + "run" + "]" == "[run]";
    assert ">" + "teal" + ": " + "idle" == ">teal: idle";
  }

  lemma Fifteen()
    ensures Fixed3(0.0015 * 1000.0) == "1.500"
  {
    hide RoundHalfEven, Padded, NatText, Digit;
    RoundedTo(1500.0, 1500);
    ThreeDigits(5, 0, 0);
    OneDigit(1);
    DigitChars();
    assert Thousandths(1500) == NatText(1) + "." + Padded(500, 3);
  }

  /** The lines of the default colours, in the order of the source's enumeration. */
  lemma DefaultLines()
    ensures LinesOf(DefaultColors()) == [
      ">blue: SNAPSHOT", ">green: RESTORE", ">pink: NETWORK", ">purple: INTERNAL", ">orange: WAIT", ">gray: FAILURE"]
  {
    assert ">" + "blue" + ": " + "SNAPSHOT" == ">blue: SNAPSHOT";
    assert ">" + "green" + ": " + "RESTORE" == ">green: RESTORE";
    assert ">" + "pink" + ": " + "NETWORK" == ">pink: NETWORK";
    assert ">" + "purple" + ": " + "INTERNAL" == ">purple: INTERNAL";
    assert ">" + "orange" + ": " + "WAIT" == ">orange: WAIT";
    assert ">" + "gray" + ": " + "FAILURE" == ">gray: FAILURE";
  }

  // ---------- distinct sections ----------

  /** The sections of a run of calls, in order, each with its own steps. */
  function Grouped(calls: seq<Call>): Dict<seq<StepEntry>> {
    if calls == [] then []
    else
      var before := Grouped(calls[..|calls| - 1]);
      match calls[|calls| - 1]
      case LogSection(name, compressed) => before + [(SectionKey(name, compressed), [])]
      case LogColor(_, _) => before
      case LogStep(step, sec, op) =>
        if before == [] then before
        else
          var (key, steps) := before[|before| - 1];
          before[|before| - 1 := (key, steps + [StepEntry(Strip(step), Kept3(sec * 1000.0), Colour(op))])]
  }

  ghost predicate DistinctSections(calls: seq<Call>) {
    forall i, j :: 0 <= i < j < |calls| && calls[i].LogSection? && calls[j].LogSection? ==>
      SectionKey(calls[i].name, calls[i].compressed) != SectionKey(calls[j].name, calls[j].compressed)
  }

  lemma {:induction false} GroupedKeys(calls: seq<Call>, k: nat)
    requires k < |Grouped(calls)|
    ensures exists i :: (0 <= i < |calls| && calls[i].LogSection?
      && SectionKey(calls[i].name, calls[i].compressed) == Grouped(calls)[k].0)
  {
    var n := |calls| - 1;
    var before := Grouped(calls[..n]);
    if k < |before| {
      GroupedKeys(calls[..n], k);
      var i :| 0 <= i < n && calls[..n][i].LogSection?
        && SectionKey(calls[..n][i].name, calls[..n][i].compressed) == before[k].0;
      assert calls[i] == calls[..n][i];
    } else {
      assert calls[n].LogSection?;
    }
  }

  lemma FindLast<V>(d: Dict<V>)
    requires d != []
    ensures Find(d, d[|d| - 1].0) == |d| - 1
  {
  }

  lemma {:induction false} DistinctSectionsAreGrouped(calls: seq<Call>)
    requires DistinctSections(calls)
    ensures MeaningOf(NOTHING, calls).sections == Grouped(calls)
  {
    hide Strip, Colour, Kept3, Find;
    if calls != [] {
      var n := |calls| - 1;
      assert forall i :: 0 <= i < n ==> calls[..n][i] == calls[i];
      DistinctSectionsAreGrouped(calls[..n]);
      CurrentIsLast(calls[..n]);
      var p, before := MeaningOf(NOTHING, calls[..n]), Grouped(calls[..n]);
      match calls[n] {
        case LogColor(_, _) =>
        case LogStep(_, _, _) =>
          if before != [] { FindLast(before); }
        case LogSection(name, compressed) =>
          var key := SectionKey(name, compressed);
          var i := Find(before, key);
          if i != -1 {
            GroupedKeys(calls[..n], i);
          }
      }
    }
  }

  lemma {:induction false} CurrentIsLast(calls: seq<Call>)
    ensures MeaningOf(NOTHING, calls).current
      == if Grouped(calls) == [] then None else Some(Grouped(calls)[|Grouped(calls)| - 1].0)
  {
    hide Strip, Colour, Kept3, Put;
    if calls != [] { CurrentIsLast(calls[..|calls| - 1]); }
  }

  ghost predicate DistinctKeys<V>(d: Dict<V>) {
    forall i, j :: 0 <= i < j < |d| ==> d[i].0 != d[j].0
  }

  lemma {:induction false} ParsedKeysAreDistinct(calls: seq<Call>)
    ensures DistinctKeys(MeaningOf(NOTHING, calls).sections)
  {
    hide Strip, Colour, Kept3, Find;
    if calls != [] { ParsedKeysAreDistinct(calls[..|calls| - 1]); }
  }

  /** A section call stands in the grouping after the groups of the calls before it. */
  lemma {:induction false} GroupedPlace(calls: seq<Call>, i: nat)
    requires i < |calls| && calls[i].LogSection?
    ensures var at := |Grouped(calls[..i])|;
      at < |Grouped(calls)| && Grouped(calls)[at].0 == SectionKey(calls[i].name, calls[i].compressed)
  {
    hide Strip, Colour, Kept3;
    var n := |calls| - 1;
    if i < n {
      GroupedPlace(calls[..n], i);
      assert calls[..n][..i] == calls[..i];
    }
  }

  /** The parse lists the sections in the order of their calls, each with exactly
      the steps logged between it and the next, if and only if no section key
      occurs twice; the current section is the last one opened in any case. */
  lemma {:induction false} SectionsInOrder(calls: seq<Call>)
    ensures var p := MeaningOf(NOTHING, calls);
      && (p.sections == Grouped(calls) <==> DistinctSections(calls))
      && p.current == (if Grouped(calls) == [] then None else Some(Grouped(calls)[|Grouped(calls)| - 1].0))
  {
    hide MeaningOf, Grouped;
    CurrentIsLast(calls);
    if DistinctSections(calls) {
      DistinctSectionsAreGrouped(calls);
    } else {
      var i, j :| 0 <= i < j < |calls| && calls[i].LogSection? && calls[j].LogSection?
        && SectionKey(calls[i].name, calls[i].compressed) == SectionKey(calls[j].name, calls[j].compressed);
      ParsedKeysAreDistinct(calls);
      GroupedPlace(calls, i);
      GroupedPlace(calls, j);
      GroupedPlace(calls[..j], i);
      assert calls[..j][..i] == calls[..i];
    }
  }

  /** The last caption of a colour key wins, over earlier calls and earlier lines. */
  lemma {:induction false} LastCaptionWins(p: Parsed, calls: seq<Call>, k: nat)
    requires k < |calls| && calls[k].LogColor?
    requires forall j :: k < j < |calls| && calls[j].LogColor? ==> Strip(calls[j].id) != Strip(calls[k].id)
    ensures var labels := MeaningOf(p, calls).labels; var i := Find(labels, Strip(calls[k].id));
      i != -1 && labels[i].1 == Strip(calls[k].caption)
  {
    hide Strip, Find, Put, Colour, Kept3;
    var n := |calls| - 1;
    var q := MeaningOf(p, calls[..n]);
    if k == n {
      PutGet(q.labels, Strip(calls[k].id), Strip(calls[k].caption));
    } else {
      assert forall j :: 0 <= j < n ==> calls[..n][j] == calls[j];
      LastCaptionWins(p, calls[..n], k);
      if calls[n].LogColor? {
        PutOther(q.labels, Strip(calls[n].id), Strip(calls[n].caption), Strip(calls[k].id));
      }
    }
  }

  /** The default colours read back, after any lines before: each colour keeps
      its name unless a later call captions it again. */
  lemma {:induction false} DefaultLabelsRead(p: Parsed, calls: seq<Call>, k: nat)
    requires k < 6
    requires forall j :: 0 <= j < |calls| && calls[j].LogColor? ==> Strip(calls[j].id) != Colour(OP_TYPES[k])
    ensures var labels := MeaningOf(p, DefaultColors() + calls).labels; var i := Find(labels, Colour(OP_TYPES[k]));
      i != -1 && labels[i].1 == OpName(OP_TYPES[k])
  {
    hide Strip, MeaningOf, Colour, OpName, DefaultColors, OP_TYPES, Find;
    DefaultColour(k);
    var all := DefaultColors() + calls;
    forall j | k < j < |all| && all[j].LogColor? ensures Strip(all[j].id) != Strip(all[k].id) {
      if j < 6 {
        DefaultColour(j);
        ColoursDiffer(OP_TYPES[j], OP_TYPES[k]);
      } else {
        assert all[j] == calls[j - 6];
      }
    }
    LastCaptionWins(p, all, k);
  }

  lemma {:induction false} FindIsLast<V>(d: Dict<V>, k: string, i: nat)
    requires i < |d| && d[i].0 == k && forall j :: i < j < |d| ==> d[j].0 != k
    ensures Find(d, k) == i
  {
    if i < |d| - 1 { FindIsLast(d[..|d| - 1], k, i); }
  }

  lemma {:induction false} NothingAfterFind<V>(d: Dict<V>, k: string)
    ensures forall j :: Find(d, k) < j < |d| ==> d[j].0 != k
  {
    if d != [] && d[|d| - 1].0 != k { NothingAfterFind(d[..|d| - 1], k); }
  }

  lemma PutGet<V>(d: Dict<V>, k: string, v: V)
    ensures var e := Put(d, k, v); Find(e, k) != -1 && e[Find(e, k)].1 == v
  {
    hide Find;
    NothingAfterFind(d, k);
    var e := Put(d, k, v);
    FindIsLast(e, k, if Find(d, k) == -1 then |d| else Find(d, k));
  }

  lemma PutOther<V>(d: Dict<V>, k: string, v: V, x: string)
    requires x != k && Find(d, x) != -1
    ensures var e := Put(d, k, v); Find(e, x) == Find(d, x) && e[Find(e, x)] == d[Find(d, x)]
  {
    hide Find;
    NothingAfterFind(d, x);
    FindIsLast(Put(d, k, v), x, Find(d, x));
  }
}
