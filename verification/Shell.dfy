/** The interactive shell: the lines a user types decide the run of the manager. */
module Shell {
  import opened SnapshotTree
  import opened ManagerModel
  import opened Soundness
  import opened EnvManager
  import opened Text

  /** What one typed line asks for. */
  datatype Action =
    | TakeSnapshot
    | RestoreTo(id: Id)
    | StepForward
    | RunCommand(text: string)
    | Exit
    | Heading(on: bool)
    | NoEffect

  /** The text after the first space, empty if there is none. */
  function AfterSpace(cmd: string): string {
    var n := First(cmd, ' ');
    if n == |cmd| then "" else cmd[n + 1..]
  }

  function Interpret(raw: string, needHeading: bool): Action {
    var cmd := Strip(raw);
    var rest := AfterSpace(cmd);
    if cmd == "snapshot" then TakeSnapshot
    else if "restore" <= cmd then (if rest == "" then NoEffect else RestoreTo(Id(rest)))
    else if cmd == "step" then StepForward
    else if "cmd" <= cmd then (if rest == "" then NoEffect else RunCommand(rest))
    else if cmd == "tree" || cmd == "stats" || cmd == "history" || cmd == "storage" then NoEffect
    else if cmd == "exit" then Exit
    else if "set" <= cmd then
      (if rest == "cmd off" then Heading(false) else if rest == "cmd on" then Heading(true) else NoEffect)
    else if needHeading then NoEffect
    else RunCommand(cmd)
  }

  /** The chance that comes with a line, if it needs any. */
  datatype Tip<+S> = Tip(luck: Luck, launch: Launch<S>)

  function OpsFor<S>(a: Action, tip: Tip<S>): seq<Op<S>> {
    match a
    case TakeSnapshot => [DoSnapshot(tip.luck)]
    case RestoreTo(id) => [DoRestore(id, tip.launch)]
    case StepForward => [DoStep(tip.luck, tip.launch)]
    case RunCommand(text) => [DoCmd(Raw(text))]
    case Exit => []
    case Heading(_) => []
    case NoEffect => []
  }

  /** The operations of a session, up to the first `exit`. */
  function Script<S>(lines: seq<string>, needHeading: bool, tips: seq<Tip<S>>): seq<Op<S>>
    requires |lines| == |tips|
    decreases |lines|
  {
    if lines == [] then []
    else
      var a := Interpret(lines[0], needHeading);
      if a.Exit? then []
      else OpsFor(a, tips[0]) + Script(lines[1..], if a.Heading? then a.on else needHeading, tips[1..])
  }

  /** The user types `exit` at some point. */
  predicate Exits(lines: seq<string>, needHeading: bool) {
    lines != [] &&
    var a := Interpret(lines[0], needHeading);
    a.Exit? || Exits(lines[1..], if a.Heading? then a.on else needHeading)
  }

  lemma NotSpace(c: char)
    requires 'a' <= c <= 'z'
    ensures !IsSpace(c)
  {
  }

  /** A typed keyword, a space and a text that ends in no white space. */
  lemma TypedText(word: string, text: string)
    requires word != "" && !IsSpace(word[0]) && forall i :: 0 <= i < |word| ==> word[i] != ' '
    requires text != "" && !IsSpace(text[|text| - 1])
    ensures var cmd := word + " " + text;
      && Strip(cmd) == cmd && AfterSpace(cmd) == text && cmd[..|word|] == word
  {
    hide Strip, First, IsSpace;
    var cmd := word + " " + text;
    assert cmd[0] == word[0] && cmd[|cmd| - 1] == text[|text| - 1];
    StripNothing(cmd);
    assert cmd == word + [' '] + text;
    FirstIs(word, ' ', text);
  }

  /** Typing `restore` and a printed id restores that id, whatever the heading
      setting, for every id without white space. */
  lemma RestoreByName(id: Id, needHeading: bool)
    requires id.text != "" && forall i :: 0 <= i < |id.text| ==> !IsSpace(id.text[i])
    ensures Interpret("restore " + id.text, needHeading) == RestoreTo(id)
  {
    hide Strip, First, IsSpace, AfterSpace;
    var word := "restore";
    assert !IsSpace(word[0]) by { NotSpace(word[0]); }
    TypedText(word, id.text);
    assert "restore " + id.text == word + " " + id.text;
    assert ("restore " + id.text)[0] == 'r';
  }

  /** Typing `cmd` and a text runs that text, whatever the heading setting, for
      every text that ends in no white space. */
  lemma CommandByName(text: string, needHeading: bool)
    requires text != "" && !IsSpace(text[|text| - 1])
    ensures Interpret("cmd " + text, needHeading) == RunCommand(text)
  {
    hide Strip, First, IsSpace, AfterSpace;
    var word := "cmd";
    assert !IsSpace(word[0]) by { NotSpace(word[0]); }
    TypedText(word, text);
    assert "cmd " + text == word + " " + text;
    assert ("cmd " + text)[0] == 'c';
  }

  /** The text is one of the shell's words or starts with one that takes a rest. */
  predicate Keyword(t: string) {
    || t == "snapshot" || t == "step" || t == "exit"
    || t == "tree" || t == "stats" || t == "history" || t == "storage"
    || "restore" <= t || "cmd" <= t || "set" <= t
  }

  /** What every line means, read after stripping: the words under either heading
      setting, the switch of the setting, the words that change nothing, and every
      other line, which runs as typed when the heading is off. */
  lemma LineMeaning(raw: string, heading: bool)
    ensures
      var t := Strip(raw); var a := Interpret(raw, heading);
      && (t == "snapshot" ==> a == TakeSnapshot)
      && (t == "step" ==> a == StepForward)
      && (t == "exit" ==> a == Exit)
      && (t == "set cmd off" ==> a == Heading(false))
      && (t == "set cmd on" ==> a == Heading(true))
      && (t == "tree" || t == "stats" || t == "history" || t == "storage" ==> a == NoEffect)
      && (t == "restore" || t == "cmd" || t == "set" ==> a == NoEffect)
      && (!Keyword(t) ==> a == if heading then NoEffect else RunCommand(t))
  {
    hide Strip, IsSpace, AfterSpace, First;
    var t := Strip(raw);
    RestOf("restore", "");
    RestOf("cmd", "");
    RestOf("set", "");
    if t == "set cmd off" {
      RestOf("set", "cmd off");
      assert t == "set" + [' '] + "cmd off" && t[0] == 's' && t[1] == 'e' && t[3] == ' ';
    } else if t == "set cmd on" {
      RestOf("set", "cmd on");
      assert t == "set" + [' '] + "cmd on" && t[0] == 's' && t[1] == 'e' && t[3] == ' ';
    }
  }

  /** The rest of a line is what follows its first space. */
  lemma RestOf(word: string, rest: string)
    requires forall i :: 0 <= i < |word| ==> word[i] != ' '
    ensures AfterSpace(word + [' '] + rest) == rest
    ensures AfterSpace(word) == ""
  {
    FirstIs(word, ' ', rest);
    var t := word + [' '] + rest;
    assert t[|word| + 1..] == rest;
  }

  /** None of the words is a line with a space in it. */
  lemma SpaceInside(t: string, n: nat)
    requires n < |t| && t[n] == ' '
    ensures t != "snapshot" && t != "step" && t != "exit"
    ensures t != "tree" && t != "stats" && t != "history" && t != "storage"
  {
  }

  /** A line with one of the three prefixes acts on what follows its first space. */
  lemma PrefixedLine(word: string, rest: string, raw: string, heading: bool)
    requires Strip(raw) == word + [' '] + rest && rest != "" && forall i :: 0 <= i < |word| ==> word[i] != ' '
    ensures "restore" <= word ==> Interpret(raw, heading) == RestoreTo(Id(rest))
    ensures "cmd" <= word ==> Interpret(raw, heading) == RunCommand(rest)
    ensures "set" <= word && rest != "cmd off" && rest != "cmd on" ==> Interpret(raw, heading) == NoEffect
  {
    hide Strip, IsSpace, AfterSpace, First;
    RestOf(word, rest);
    var t := Strip(raw);
    assert t[|word|] == ' ' && t[..|word|] == word;
    assert "restore" <= word ==> "restore" <= t && t[0] == 'r';
    assert "cmd" <= word ==> "cmd" <= t && t[0] == 'c';
    assert "set" <= word ==> "set" <= t && t[0] == 's' && t[1] == 'e';
    SpaceInside(t, |word|);
  }

  /** The line asks for one operation. */
  predicate Acting(t: string, heading: bool) {
    || t == "snapshot" || t == "step"
    || (|t| > 4 && t[..4] == "cmd ") || (|t| > 8 && t[..8] == "restore ")
    || (!heading && !Keyword(t))
  }

  /** The operation it asks for. */
  function OpOfLine<S>(t: string, tip: Tip<S>): Op<S> {
    if t == "snapshot" then DoSnapshot(tip.luck)
    else if t == "step" then DoStep(tip.luck, tip.launch)
    else if |t| > 4 && t[..4] == "cmd " then DoCmd(Raw(t[4..]))
    else if |t| > 8 && t[..8] == "restore " then DoRestore(Id(t[8..]), tip.launch)
    else DoCmd(Raw(t))
  }

  lemma ActingLine<S>(raw: string, heading: bool, tip: Tip<S>)
    requires Acting(Strip(raw), heading)
    ensures var a := Interpret(raw, heading);
      !a.Exit? && !a.Heading? && OpsFor(a, tip) == [OpOfLine(Strip(raw), tip)]
  {
    hide Strip, Interpret, IsSpace;
    var t := Strip(raw);
    LineMeaning(raw, heading);
    if |t| > 4 && t[..4] == "cmd " {
      assert t == "cmd" + [' '] + t[4..] && t[..4][0] == 'c';
      PrefixedLine("cmd", t[4..], raw, heading);
    } else if |t| > 8 && t[..8] == "restore " {
      assert t == "restore" + [' '] + t[8..] && t[..8][0] == 'r';
      PrefixedLine("restore", t[8..], raw, heading);
    }
  }

  /** A session of acting lines, up to an `exit` or to the end: one operation for
      each line, in order, and the session exits exactly if the `exit` was typed. */
  lemma {:induction false} SessionOfActingLines<S>(lines: seq<string>, heading: bool, tips: seq<Tip<S>>, n: nat)
    requires |lines| == |tips| && n <= |lines| && (n < |lines| ==> Strip(lines[n]) == "exit")
    requires forall i :: 0 <= i < n ==> Acting(Strip(lines[i]), heading)
    ensures var ops := Script(lines, heading, tips);
      |ops| == n && forall i :: 0 <= i < n ==> ops[i] == OpOfLine(Strip(lines[i]), tips[i])
    ensures Exits(lines, heading) <==> n < |lines|
    decreases |lines|
  {
    hide Strip, Interpret, OpsFor, OpOfLine, Acting;
    if lines != [] {
      if n == 0 {
        LineMeaning(lines[0], heading);
      } else {
        ActingLine(lines[0], heading, tips[0]);
        SessionOfActingLines(lines[1..], heading, tips[1..], n - 1);
      }
    }
  }

  /** A line that only changes the setting, or changes nothing, adds no operation. */
  lemma QuietLine<S>(lines: seq<string>, heading: bool, tips: seq<Tip<S>>)
    requires |lines| == |tips| && lines != []
    ensures var t := Strip(lines[0]);
      && (t == "set cmd off" ==> Script(lines, heading, tips) == Script(lines[1..], false, tips[1..]))
      && (t == "set cmd on" ==> Script(lines, heading, tips) == Script(lines[1..], true, tips[1..]))
      && (t == "tree" || t == "stats" || t == "history" || t == "storage" ==>
            Script(lines, heading, tips) == Script(lines[1..], heading, tips[1..]))
      && (heading && !Keyword(t) ==> Script(lines, heading, tips) == Script(lines[1..], heading, tips[1..]))
  {
    hide Strip, Interpret, Keyword;
    LineMeaning(lines[0], heading);
  }

  lemma {:induction false} OneStep<S>(w: World<S>, s: State<S>, op: Op<S>, rest: seq<Op<S>>)
    requires Shaped(s) && FreshRun(w, s, [op] + rest)
    ensures FreshOp(w, s, op) && Shaped(Next(w, s, op)) && FreshRun(w, Next(w, s, op), rest)
    ensures Run(w, s, [op] + rest) == Run(w, Next(w, s, op), rest)
  {
    assert ([op] + rest)[1..] == rest;
    NextShaped(w, s, op);
  }

  /** What the next line adds to the session. */
  lemma NextLine<S>(lines: seq<string>, heading: bool, tips: seq<Tip<S>>, k: nat)
    requires |lines| == |tips| && k < |lines|
    ensures var a := Interpret(lines[k], heading); var h := if a.Heading? then a.on else heading;
      && (a.Exit? ==> Script(lines[k..], heading, tips[k..]) == [] && Exits(lines[k..], heading))
      && (!a.Exit? ==>
            && Script(lines[k..], heading, tips[k..]) == OpsFor(a, tips[k]) + Script(lines[k + 1..], h, tips[k + 1..])
            && Exits(lines[k..], heading) == Exits(lines[k + 1..], h))
  {
    hide Interpret;
    assert lines[k..][1..] == lines[k + 1..] && tips[k..][1..] == tips[k + 1..];
  }

  /** One line of a session is one operation of its run, or none. */
  lemma {:induction false} SessionStep<S>(
    w: World<S>, s: State<S>, lines: seq<string>, heading: bool, tips: seq<Tip<S>>, k: nat)
    requires |lines| == |tips| && k < |lines|
    requires Shaped(s) && FreshRun(w, s, Script(lines[k..], heading, tips[k..]))
    ensures Ranked(s.graph)
    ensures
      var a := Interpret(lines[k], heading);
      var h := if a.Heading? then a.on else heading;
      var t := After(w, s, OpsFor(a, tips[k]));
      var rest := Script(lines[k + 1..], h, tips[k + 1..]);
      && (a.Exit? ==> Script(lines[k..], heading, tips[k..]) == [] && Exits(lines[k..], heading))
      && (!a.Exit? ==>
            && Exits(lines[k..], heading) == Exits(lines[k + 1..], h)
            && Shaped(t) && FreshRun(w, t, rest)
            && Run(w, s, Script(lines[k..], heading, tips[k..])) == Run(w, t, rest))
  {
    hide Run, FreshRun, FreshOp, Interpret, Next, Shaped, Script, Exits;
    ShapedIsRanked(s);
    NextLine(lines, heading, tips, k);
    var a := Interpret(lines[k], heading);
    if !a.Exit? {
      var ops := OpsFor(a, tips[k]);
      var rest := Script(lines[k + 1..], if a.Heading? then a.on else heading, tips[k + 1..]);
      if ops != [] {
        assert ops + rest == [ops[0]] + rest;
        OneStep(w, s, ops[0], rest);
      } else {
        assert ops + rest == rest;
      }
    }
  }

  lemma NoMoreLines<S>(lines: seq<string>, heading: bool, tips: seq<Tip<S>>)
    requires |lines| == |tips|
    ensures Script(lines[|lines|..], heading, tips[|lines|..]) == [] && !Exits(lines[|lines|..], heading)
  {
  }

  /** The state after at most one operation. */
  function After<S>(w: World<S>, s: State<S>, ops: seq<Op<S>>): State<S>
    requires Ranked(s.graph)
  {
    if ops == [] then s else Next(w, s, ops[0])
  }

  /** One operation of the manager object is one step of the model. */
  method Perform<S>(m: EnvironmentManager<S>, action: Action, tip: Tip<S>)
    requires m.Valid() && Ranked(m.graph)
    modifies m, m.stats, m.nodes.Values
    ensures m.Valid()
    ensures forall i :: i in m.nodes ==> m.nodes[i] in old(m.nodes.Values) || fresh(m.nodes[i])
    ensures m.View() == After(m.world, old(m.View()), OpsFor(action, tip))
  {
    hide Snapshot, Restore, Exec, CreateEnv, NewId;
    match action {
      case TakeSnapshot =>
        var id := m.Snapshot(tip.luck);
      case RestoreTo(id) =>
        var ok := m.Restore(id, tip.launch);
      case StepForward =>
        var id := m.Snapshot(tip.luck);
        if id.Some? {
          var ok := m.CreateEnvFromSnapshot(id.value, tip.launch);
        }
      case RunCommand(text) =>
        var reply := m.ExecCommand(Raw(text));
      case Exit =>
      case Heading(_) =>
      case NoEffect =>
    }
  }

  /** A whole session: the manager ends where the run of the typed script ends,
      cleaned up if the user typed `exit`. */
  method InteractiveShell<S>(m: EnvironmentManager<S>, lines: seq<string>, tips: seq<Tip<S>>, gone: S)
    returns (exited: bool)
    requires |lines| == |tips| && m.Valid() && Shaped(m.View())
    requires FreshRun(m.world, m.View(), Script(lines, true, tips))
    modifies m, m.stats, m.nodes.Values
    ensures m.Valid() && exited == Exits(lines, true)
    ensures var end := Run(m.world, old(m.View()), Script(lines, true, tips));
      m.View() == if exited then Cleanup(end, gone) else end
  {
    hide Run, FreshRun, Interpret, After, OpsFor, Shaped, Script, Exits, Cleanup;
    ghost var end := Run(m.world, m.View(), Script(lines, true, tips));
    var needCmdHeading := true;
    assert lines[0..] == lines && tips[0..] == tips;
    for k := 0 to |lines|
      invariant m.Valid() && Exits(lines[k..], needCmdHeading) == Exits(lines, true)
      invariant forall i :: i in m.nodes ==> m.nodes[i] in old(m.nodes.Values) || fresh(m.nodes[i])
      invariant Shaped(m.View()) && FreshRun(m.world, m.View(), Script(lines[k..], needCmdHeading, tips[k..]))
      invariant Run(m.world, m.View(), Script(lines[k..], needCmdHeading, tips[k..])) == end
    {
      var action := Interpret(lines[k], needCmdHeading);
      SessionStep(m.world, m.View(), lines, needCmdHeading, tips, k);
      if action.Exit? {
        RunOfNothing(m.world, m.View());
        m.Cleanup(gone);
        return true;
      }
      if action.Heading? {
        needCmdHeading := action.on;
      }
      Perform(m, action, tips[k]);
    }
    NoMoreLines(lines, needCmdHeading, tips);
    RunOfNothing(m.world, m.View());
    exited := false;
  }
}
