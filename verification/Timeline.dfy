/** The timeline file: what `TimelineManager` writes and what
    `parse_timeline_file` reads back. */
module Timeline {
  import opened Prelude
  import opened Decimal
  import opened Text

  // ---------- dictionaries with insertion order ----------

  type Dict<V> = seq<(string, V)>

  function Find<V>(d: Dict<V>, k: string): (i: int)
    ensures -1 <= i < |d| && (i >= 0 ==> d[i].0 == k)
    ensures i == -1 ==> forall j :: 0 <= j < |d| ==> d[j].0 != k
  {
    if d == [] then -1 else if d[|d| - 1].0 == k then |d| - 1 else Find(d[..|d| - 1], k)
  }

  /** Assign to a key: in place if it is there, at the end if it is new. */
  function Put<V>(d: Dict<V>, k: string, v: V): Dict<V> {
    if Find(d, k) == -1 then d + [(k, v)] else d[Find(d, k) := (k, v)]
  }

  function Keys<V>(d: Dict<V>): seq<string> {
    seq(|d|, i requires 0 <= i < |d| => d[i].0)
  }

  /** Assigning keeps the order of the keys and adds a new one at the end. */
  lemma PutKeepsOrder<V>(d: Dict<V>, k: string, v: V)
    ensures Keys(Put(d, k, v)) == Keys(d) + if k in Keys(d) then [] else [k]
  {
    hide Find;
    var i := Find(d, k);
    if i == -1 {
      assert k !in Keys(d);
    } else {
      assert Keys(d)[i] == k;
      assert Keys(d) + [] == Keys(d);
    }
  }

  // ---------- the writer ----------

  datatype OpType = SnapshotOp | RestoreOp | NetworkOp | InternalOp | WaitOp | FailureOp

  function Colour(op: OpType): string {
    match op
    case SnapshotOp => "blue" case RestoreOp => "green" case NetworkOp => "pink"
    case InternalOp => "purple" case WaitOp => "orange" case FailureOp => "gray"
  }

  function OpName(op: OpType): string {
    match op
    case SnapshotOp => "SNAPSHOT" case RestoreOp => "RESTORE" case NetworkOp => "NETWORK"
    case InternalOp => "INTERNAL" case WaitOp => "WAIT" case FailureOp => "FAILURE"
  }

  /** One call of a `log_*` method. */
  datatype Call =
    | LogSection(name: string, compressed: bool)
    | LogStep(step: string, sec: real, op: OpType)
    | LogColor(id: string, caption: string)

  function SectionKey(name: string, compressed: bool): string {
    if compressed then "*" + name else name
  }

  function LineOf(c: Call): string {
    match c
    case LogSection(name, compressed) => "[" + SectionKey(name, compressed) + "]"
    case LogStep(step, sec, op) => step + ", " + Fixed3(sec * 1000.0) + ", " + Colour(op)
    case LogColor(id, caption) => ">" + id + ": " + caption
  }

  function LinesOf(calls: seq<Call>): seq<string> {
    seq(|calls|, i requires 0 <= i < |calls| => LineOf(calls[i]))
  }

  function Header(runId: nat, created: string): seq<string> {
    ["# Timeline Data for RunID " + NatText(runId), "# Created at UTC " + created,
     "# Duration unit is milliseconds(ms)"]
  }

  function DefaultColors(): seq<Call> {
    [LogColor("blue", "SNAPSHOT"), LogColor("green", "RESTORE"), LogColor("pink", "NETWORK"),
     LogColor("purple", "INTERNAL"), LogColor("orange", "WAIT"), LogColor("gray", "FAILURE")]
  }

  class TimelineManager {
    var file: string
    var writeCache: seq<string>

    /** The file opened for appending, with the three comment lines. */
    constructor (existing: string, runId: nat, created: string)
      ensures file == existing + JoinLines(Header(runId, created)) && writeCache == []
    {
      var h := Header(runId, created);
      file := existing + (h[0] + "\n" + (h[1] + "\n" + (h[2] + "\n")));
      writeCache := [];
      new;
      assert h[1..] == [h[1], h[2]] && h[1..][1..] == [h[2]];
      assert JoinLines([h[2]]) == h[2] + "\n" + JoinLines([]);
      assert JoinLines([h[1], h[2]]) == h[1] + "\n" + JoinLines([h[2]]);
    }

    /** All lines so far, written or not. */
    ghost function Whole(): string
      reads this
    {
      file + JoinLines(writeCache)
    }

    method Cache(content: string)
      modifies `writeCache
      ensures writeCache == old(writeCache) + [content]
      ensures Whole() == old(Whole()) + content + "\n"
    {
      writeCache := writeCache + [content];
      JoinAppend(old(writeCache), [content]);
      assert JoinLines([content]) == content + "\n";
      assert old(file) + (JoinLines(old(writeCache)) + (content + "\n"))
          == old(file) + JoinLines(old(writeCache)) + content + "\n";
    }

    method LogSectionCall(name: string, compressed: bool)
      modifies `writeCache
      ensures writeCache == old(writeCache) + [LineOf(LogSection(name, compressed))]
    {
      var sectionName := name;
      if compressed {
        sectionName := "*" + name;
      }
      Cache("[" + sectionName + "]");
    }

    method LogStepCall(step: string, sec: real, op: OpType)
      modifies `writeCache
      ensures writeCache == old(writeCache) + [LineOf(LogStep(step, sec, op))]
    {
      hide Fixed3, Colour;
      Cache(step + ", " + Fixed3(sec * 1000.0) + ", " + Colour(op));
    }

    method LogColorCall(id: string, caption: string)
      modifies `writeCache
      ensures writeCache == old(writeCache) + [LineOf(LogColor(id, caption))]
    {
      Cache(">" + id + ": " + caption);
    }

    method LogDefaultColor()
      modifies `writeCache
      ensures writeCache == old(writeCache) + LinesOf(DefaultColors())
    {
      var ops := [SnapshotOp, RestoreOp, NetworkOp, InternalOp, WaitOp, FailureOp];
      for k := 0 to |ops|
        invariant writeCache == old(writeCache) + LinesOf(DefaultColors())[..k]
      {
        LogColorCall(Colour(ops[k]), OpName(ops[k]));
      }
    }

    /** Write the cache, if there is any, and empty it. */
    method Flush()
      modifies this
      ensures file == old(Whole()) && writeCache == []
    {
      if writeCache != [] {
        file := file + JoinLines(writeCache);
        writeCache := [];
      } else {
        assert JoinLines(writeCache) == "";
      }
    }

    method Log(c: Call)
      modifies `writeCache
      ensures Whole() == old(Whole()) + (LineOf(c) + "\n")
    {
      hide LineOf;
      match c {
        case LogSection(name, compressed) => LogSectionCall(name, compressed);
        case LogStep(step, sec, op) => LogStepCall(step, sec, op);
        case LogColor(id, caption) => LogColorCall(id, caption);
      }
      JoinAppend(old(writeCache), [LineOf(c)]);
      assert JoinLines([LineOf(c)]) == LineOf(c) + "\n";
      assert file + (JoinLines(old(writeCache)) + (LineOf(c) + "\n"))
          == file + JoinLines(old(writeCache)) + (LineOf(c) + "\n");
    }

    /** Any sequence of calls with flushes anywhere in between, then a last
        flush: the file holds the lines in call order. */
    method WriteAll(calls: seq<Call>, flushAfter: set<nat>)
      modifies this
      ensures file == old(Whole()) + JoinLines(LinesOf(calls)) && writeCache == []
    {
      hide LineOf, LinesOf, JoinLines;
      NoLines(calls);
      for k := 0 to |calls|
        invariant Whole() == old(Whole()) + JoinLines(LinesOf(calls[..k]))
      {
        ghost var whole := Whole();
        Log(calls[k]);
        OneMoreLine(calls, k);
        assert Whole() == old(Whole()) + JoinLines(LinesOf(calls[..k + 1]));
        if k in flushAfter {
          ghost var before := Whole();
          Flush();
          EmptyJoin();
          assert Whole() == before;
        }
      }
      assert calls[..|calls|] == calls;
      Flush();
    }
  }

  lemma EmptyJoin()
    ensures JoinLines([]) == ""
  {
  }

  lemma NoLines(calls: seq<Call>)
    ensures JoinLines(LinesOf(calls[..0])) == ""
  {
  }

  lemma OneMoreLine(calls: seq<Call>, k: nat)
    requires k < |calls|
    ensures JoinLines(LinesOf(calls[..k + 1])) == JoinLines(LinesOf(calls[..k])) + (LineOf(calls[k]) + "\n")
  {
    hide LineOf;
    var before, one := LinesOf(calls[..k]), [LineOf(calls[k])];
    assert LinesOf(calls[..k + 1]) == before + one;
    JoinAppend(before, one);
    assert one[1..] == [];
    assert JoinLines(one) == LineOf(calls[k]) + "\n";
  }

  // ---------- the reader ----------

  datatype StepEntry = StepEntry(name: string, duration: real, color: string)

  datatype Parsed = Parsed(sections: Dict<seq<StepEntry>>, labels: Dict<string>, current: Option<string>)

  /** The parsed file, or the exception the reader lets escape. */
  datatype ParseResult = Ok(parsed: Parsed) | KeyError | ValueError

  /** Python's `float`; None where it raises ValueError. */
  type FloatReader = string -> Option<real>

  /** A reader of floats that agrees with plain decimal notation. */
  ghost predicate ReadsDecimals(fl: FloatReader) {
    forall t :: PlainDecimal(t).Some? ==> fl(t) == PlainDecimal(t)
  }

  const NOTHING := Parsed([], [], None)

  predicate Skipped(raw: string) {
    Strip(raw) == "" || Strip(raw)[0] == '#'
  }

  function AddStep(p: Parsed, key: string, step: StepEntry): Parsed {
    var i := Find(p.sections, key);
    p.(sections := Put(p.sections, key, (if i == -1 then [] else p.sections[i].1) + [step]))
  }

  function ParseStep(fl: FloatReader, p: Parsed, line: string): ParseResult {
    var j := Last(line, ',');
    var i := if j == -1 then -1 else Last(line[..j], ',');
    if i == -1 then Ok(p)
    else if p.current.None? || Find(p.sections, p.current.value) == -1 then KeyError
    else
      match fl(Strip(line[i + 1..j]))
      case None => Ok(p)
      case Some(x) => Ok(AddStep(p, p.current.value, StepEntry(Strip(line[..i]), x, Strip(line[j + 1..]))))
  }

  function ParseLine(fl: FloatReader, p: Parsed, raw: string): ParseResult {
    var line := Strip(raw);
    if line == "" || line[0] == '#' then Ok(p)
    else if line[0] == '[' && line[|line| - 1] == ']' then
      var key := line[1..|line| - 1];
      Ok(p.(sections := Put(p.sections, key, []), current := Some(key)))
    else if line[0] == '>' then
      var rest := line[1..];
      var c := First(rest, ':');
      if c == |rest| then ValueError
      else Ok(p.(labels := Put(p.labels, Strip(rest[..c]), Strip(rest[c + 1..]))))
    else ParseStep(fl, p, line)
  }

  function ParseAll(fl: FloatReader, p: Parsed, lines: seq<string>): ParseResult {
    if lines == [] then Ok(p)
    else
      var n := |lines| - 1;
      match ParseAll(fl, p, lines[..n])
      case Ok(q) => ParseLine(fl, q, lines[n])
      case KeyError => KeyError
      case ValueError => ValueError
  }

  lemma OneMore(fl: FloatReader, p: Parsed, lines: seq<string>, k: nat)
    requires k < |lines| && ParseAll(fl, p, lines[..k]).Ok?
    ensures ParseAll(fl, p, lines[..k + 1]) == ParseLine(fl, ParseAll(fl, p, lines[..k]).parsed, lines[k])
  {
    assert lines[..k + 1][..k] == lines[..k];
  }

  /** An exception ends the whole parse. */
  lemma {:induction false} ErrorsStick(fl: FloatReader, p: Parsed, lines: seq<string>, k: nat)
    requires k <= |lines| && !ParseAll(fl, p, lines[..k]).Ok?
    ensures ParseAll(fl, p, lines) == ParseAll(fl, p, lines[..k])
  {
    if k == |lines| {
      assert lines[..k] == lines;
    } else {
      assert lines[..|lines| - 1][..k] == lines[..k];
      ErrorsStick(fl, p, lines[..|lines| - 1], k);
    }
  }

  /** The body of the reader's loop; `failed` is the exception, if one escapes. */
  method ParseOneLine(fl: FloatReader, raw: string, sections: Dict<seq<StepEntry>>, labels: Dict<string>,
                      current: Option<string>)
    returns (newSections: Dict<seq<StepEntry>>, newLabels: Dict<string>, newCurrent: Option<string>,
             failed: Option<ParseResult>)
    ensures failed.None? ==>
      ParseLine(fl, Parsed(sections, labels, current), raw) == Ok(Parsed(newSections, newLabels, newCurrent))
    ensures failed.Some? ==> !failed.value.Ok? && ParseLine(fl, Parsed(sections, labels, current), raw) == failed.value
  {
    hide Strip, First, Last, Find, Put;
    newSections, newLabels, newCurrent, failed := sections, labels, current, None;
    var line := Strip(raw);
    if line == "" || line[0] == '#' {
      return;
    }
    if line[0] == '[' && line[|line| - 1] == ']' {
      newCurrent := Some(line[1..|line| - 1]);
      newSections := Put(sections, newCurrent.value, []);
    } else if line[0] == '>' {
      var rest := line[1..];
      var c := First(rest, ':');
      if c == |rest| {
        failed := Some(ValueError);
      } else {
        newLabels := Put(labels, Strip(rest[..c]), Strip(rest[c + 1..]));
      }
    } else {
      var j := Last(line, ',');
      var i := if j == -1 then -1 else Last(line[..j], ',');
      if i == -1 {
        return;
      }
      if current.None? || Find(sections, current.value) == -1 {
        failed := Some(KeyError);
        return;
      }
      var duration := fl(Strip(line[i + 1..j]));
      if duration.Some? {
        var step := StepEntry(Strip(line[..i]), duration.value, Strip(line[j + 1..]));
        newSections := Put(sections, current.value, sections[Find(sections, current.value)].1 + [step]);
      }
    }
  }

  method ParseTimelineFile(fl: FloatReader, text: string) returns (r: ParseResult)
    ensures r == ParseAll(fl, NOTHING, SplitLines(text))
  {
    var sections: Dict<seq<StepEntry>> := [];
    var colorLabels: Dict<string> := [];
    var currentSection: Option<string> := None;
    var lines := SplitLines(text);
    assert ParseAll(fl, NOTHING, lines[..0]) == Ok(Parsed([], [], None));
    hide ParseAll, ParseLine, SplitLines;
    for k := 0 to |lines|
      invariant ParseAll(fl, NOTHING, lines[..k]) == Ok(Parsed(sections, colorLabels, currentSection))
    {
      OneMore(fl, NOTHING, lines, k);
      var failed;
      sections, colorLabels, currentSection, failed :=
        ParseOneLine(fl, lines[k], sections, colorLabels, currentSection);
      if failed.Some? {
        ErrorsStick(fl, NOTHING, lines, k + 1);
        return failed.value;
      }
    }
    assert lines[..|lines|] == lines;
    r := Ok(Parsed(sections, colorLabels, currentSection));
  }

  // ---------- what each kind of line does ----------

  /** A line in brackets, whatever is between them, opens a section of that name
      without steps. */
  lemma SectionLine(fl: FloatReader, p: Parsed, t: string)
    ensures ParseLine(fl, p, "[" + t + "]") == Ok(p.(sections := Put(p.sections, t, []), current := Some(t)))
  {
    hide Put, Find;
    var s := "[" + t + "]";
    assert s[0] == '[' && s[|s| - 1] == ']' && s[1..|s| - 1] == t;
    StripNothing(s);
  }

  /** A line that starts with '>' is a caption up to its first colon; without a
      colon the reader fails. */
  lemma CaptionLine(fl: FloatReader, p: Parsed, key: string, caption: string)
    requires ':' !in key && (caption == "" || !IsSpace(caption[|caption| - 1]))
    ensures ParseLine(fl, p, ">" + key + ":" + caption) == Ok(p.(labels := Put(p.labels, Strip(key), Strip(caption))))
    ensures key == "" || !IsSpace(key[|key| - 1]) ==> ParseLine(fl, p, ">" + key) == ValueError
  {
    hide Put, Find, Strip, First;
    var s := ">" + key + ":" + caption;
    assert s[0] == '>' && s[|s| - 1] == if caption == "" then ':' else caption[|caption| - 1];
    StripNothing(s);
    var rest := s[1..];
    assert rest == key + [':'] + caption;
    FirstIs(key, ':', caption);
    assert rest[..|key|] == key && rest[|key| + 1..] == caption;
    if key == "" || !IsSpace(key[|key| - 1]) {
      var bare := ">" + key;
      assert bare[0] == '>' && bare[|bare| - 1] == if key == "" then '>' else key[|key| - 1];
      StripNothing(bare);
      assert bare[1..] == key;
      NoSuchChar(key, ':');
    }
  }

  lemma NoSuchChar(t: string, c: char)
    requires c !in t
    ensures First(t, c) == |t|
  {
    hide First;
  }

  /** A comment and a blank line do nothing. */
  lemma CommentLine(fl: FloatReader, p: Parsed, t: string)
    requires t == "" || !IsSpace(t[|t| - 1])
    ensures ParseLine(fl, p, "#" + t) == Ok(p) && ParseLine(fl, p, "") == Ok(p)
  {
    var s := "#" + t;
    assert s[0] == '#' && s[|s| - 1] == if t == "" then '#' else t[|t| - 1];
    hide IsSpace;
    assert !IsSpace('#') by { HashIsNoSpace(); }
    StripNothing(s);
  }

  lemma HashIsNoSpace()
    ensures !IsSpace('#')
  {
  }

  /** Any other line is a step if it has two commas: the last two split off the
      duration and the colour, and the name keeps the others. Outside a section the
      reader fails; a duration that is no number skips the line; so do fewer commas. */
  lemma StepLineRead(fl: FloatReader, p: Parsed, name: string, duration: string, colour: string)
    requires name != "" && !IsSpace(name[0]) && name[0] != '#' && name[0] != '>' && name[0] != '['
    requires ',' !in duration && ',' !in colour && colour != "" && !IsSpace(colour[|colour| - 1])
    ensures ParseLine(fl, p, name + "," + duration + "," + colour) ==
      if p.current.None? || p.current.value !in Keys(p.sections) then KeyError
      else
        match fl(Strip(duration))
        case None => Ok(p)
        case Some(x) => Ok(AddStep(p, p.current.value, StepEntry(Strip(name), x, Strip(colour))))
    ensures ',' !in name ==> ParseLine(fl, p, name + "," + colour) == Ok(p)
  {
    hide Strip, Find, Put, Last, IsSpace, AddStep;
    var front := name + "," + duration;
    var s := front + "," + colour;
    assert s[0] == name[0] && s[|s| - 1] == colour[|colour| - 1];
    StripNothing(s);
    assert s == front + [','] + colour && front == name + [','] + duration;
    LastIs(front, ',', colour);
    assert s[..|front|] == front && s[|front| + 1..] == colour;
    LastIs(name, ',', duration);
    assert s[..|name|] == name && s[|name| + 1..|front|] == duration;
    if p.current.Some? { InKeys(p.sections, p.current.value); }
    if ',' !in name { TooFewCommas(fl, p, name, colour); }
  }

  lemma InKeys<V>(d: Dict<V>, k: string)
    ensures k in Keys(d) <==> Find(d, k) != -1
  {
    hide Find;
    var i := Find(d, k);
    if i != -1 { assert Keys(d)[i] == k; }
  }

  lemma TooFewCommas(fl: FloatReader, p: Parsed, name: string, colour: string)
    requires name != "" && !IsSpace(name[0]) && name[0] != '#' && name[0] != '>' && name[0] != '['
    requires ',' !in name && ',' !in colour && colour != "" && !IsSpace(colour[|colour| - 1])
    ensures ParseLine(fl, p, name + "," + colour) == Ok(p)
  {
    hide Strip, Find, Put, Last, IsSpace;
    var s := name + "," + colour;
    assert s[0] == name[0] && s[|s| - 1] == colour[|colour| - 1];
    StripNothing(s);
    assert s == name + [','] + colour;
    LastIs(name, ',', colour);
    assert s[..|name|] == name;
    NoLastChar(name, ',');
  }

  lemma NoLastChar(t: string, c: char)
    requires c !in t
    ensures Last(t, c) == -1
  {
    hide Last;
  }

  // ---------- comments and blank lines ----------

  function Meaningful(lines: seq<string>): seq<string> {
    if lines == [] then []
    else Meaningful(lines[..|lines| - 1]) + if Skipped(lines[|lines| - 1]) then [] else [lines[|lines| - 1]]
  }

  lemma SkippedLine(fl: FloatReader, p: Parsed, raw: string)
    requires Skipped(raw)
    ensures ParseLine(fl, p, raw) == Ok(p)
  {
  }

  /** Blank and comment lines are transparent: a file parses like its other
      lines alone, so inserting such lines anywhere changes nothing. */
  lemma {:induction false} CommentsAreTransparent(fl: FloatReader, p: Parsed, lines: seq<string>)
    ensures ParseAll(fl, p, lines) == ParseAll(fl, p, Meaningful(lines))
  {
    hide ParseLine, Skipped;
    if lines != [] {
      var n := |lines| - 1;
      CommentsAreTransparent(fl, p, lines[..n]);
      var kept := Meaningful(lines[..n]);
      if !Skipped(lines[n]) {
        assert (kept + [lines[n]])[..|kept|] == kept;
      } else {
        assert kept + [] == kept;
        if ParseAll(fl, p, lines[..n]).Ok? {
          SkippedLine(fl, ParseAll(fl, p, lines[..n]).parsed, lines[n]);
        }
      }
    }
  }
}
