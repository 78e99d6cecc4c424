/** The whole benchmark log of a run: every entry, in order, with its operation,
    target and time. */
module Journal {
  import opened Prelude
  import opened SnapshotTree
  import opened Benchmark
  import opened ManagerModel
  import opened Soundness

  /** An entry without its number. */
  datatype Record = Record(operation: Operation, target: Option<Id>, elapsed: real)

  function Records(es: seq<Entry>): seq<Record> {
    seq(|es|, i requires 0 <= i < |es| => Record(es[i].operation, es[i].target, es[i].elapsed))
  }

  lemma Recorded(l: Ledger, operation: Operation, target: Option<Id>, elapsed: real)
    ensures Records(Add(l, operation, target, elapsed).entries)
      == Records(l.entries) + [Record(operation, target, elapsed)]
  {
  }

  /** One "exec" record per replayed command, each with the time the command
      takes where the replay has led. */
  function ReplayRecords<S>(w: World<S>, start: S, cmds: seq<Command>, position: Option<Id>): (r: seq<Record>)
    ensures |r| == |cmds|
    ensures forall i :: 0 <= i < |r| ==> r[i].operation == EXEC && r[i].target == position
  {
    if cmds == [] then []
    else
      var n := |cmds| - 1;
      ReplayRecords(w, start, cmds[..n], position)
      + [Record(EXEC, position, w.run(RunAll(w, start, cmds[..n]), cmds[n]).elapsed)]
  }

  ghost predicate Positioned<S>(s: State<S>) {
    s.current.Some? && s.current.value.text != ""
  }

  lemma {:induction false} ReplayRecorded<S>(w: World<S>, s: State<S>, cmds: seq<Command>)
    requires Positioned(s)
    ensures ExecAll(w, s, cmds).current == s.current
    ensures Records(ExecAll(w, s, cmds).stats.entries)
      == Records(s.stats.entries) + ReplayRecords(w, s.live, cmds, s.current)
  {
    hide Add, Records;
    if cmds == [] {
      assert Records(s.stats.entries) + [] == Records(s.stats.entries);
    } else {
      var n := |cmds| - 1;
      ReplayRecorded(w, s, cmds[..n]);
      ExecAllEffect(w, s, cmds[..n]);
      var m := ExecAll(w, s, cmds[..n]);
      Recorded(m.stats, EXEC, m.current, w.run(m.live, cmds[n]).elapsed);
      assert Truthy(m.current) == m.current;
    }
  }

  /** What a snapshot writes: its id and the backend's time, if it is physical. */
  ghost function SnapshotRecords<S>(w: World<S>, s: State<S>, luck: Luck): seq<Record> {
    if TakesPhysical(w, s, luck) && luck.commit.Some?
    then [Record(SNAPSHOT, Some(luck.commit.value.0), luck.commit.value.1)]
    else []
  }

  /** What an operation writes. A restore names the physical ancestor it starts,
      with the time of the start, and books the replay on the position it leaves. */
  ghost function RecordsOf<S>(w: World<S>, s: State<S>, op: Op<S>): seq<Record>
    requires Shaped(s)
  {
    match op
    case DoCmd(cmd) => [Record(EXEC, s.current, w.run(s.live, cmd).elapsed)]
    case DoRestore(id, launch) =>
      if id in s.graph.nodes && launch.ok
      then
        [Record(RESTORE, Anchor(s.graph, id), launch.elapsed)]
        + ReplayRecords(w, Base(s, id), Replay(s.graph, id), s.current)
      else []
    case DoSnapshot(luck) => SnapshotRecords(w, s, luck)
    case DoStep(luck, launch) =>
      var made := SnapshotRecords(w, s, luck);
      if made != [] && launch.ok then made + [Record(CONTAINER, made[0].target, launch.elapsed)] else made
  }

  lemma ShapedIsPositioned<S>(s: State<S>)
    requires Shaped(s)
    ensures Positioned(s) && Truthy(s.current) == s.current
  {
    assert s.current.value != Id("");
  }

  lemma {:induction false} SnapshotRecorded<S>(w: World<S>, s: State<S>, luck: Luck)
    ensures Records(Snapshot(w, s, luck).stats.entries) == Records(s.stats.entries) + SnapshotRecords(w, s, luck)
  {
    hide Add, Records, Attach;
    var es := Records(s.stats.entries);
    assert es + [] == es;
    if TakesPhysical(w, s, luck) && luck.commit.Some? {
      Recorded(s.stats, SNAPSHOT, Some(luck.commit.value.0), luck.commit.value.1);
    }
  }

  lemma {:induction false} StartRecorded<S>(s: State<S>, id: Id, launch: Launch<S>)
    ensures Records(CreateEnv(s, id, launch).stats.entries) == Records(s.stats.entries)
      + if Launches(s, id, launch) then [Record(CONTAINER, Some(id), launch.elapsed)] else []
  {
    hide Add, Records;
    var es := Records(s.stats.entries);
    assert es + [] == es;
    Recorded(s.stats, CONTAINER, Some(id), launch.elapsed);
  }

  lemma {:induction false} StepRecorded<S>(w: World<S>, s: State<S>, luck: Luck, launch: Launch<S>)
    requires Shaped(s) && Fresh(w, s, luck)
    ensures Records(Next(w, s, DoStep(luck, launch)).stats.entries)
      == Records(s.stats.entries) + RecordsOf(w, s, DoStep(luck, launch))
  {
    hide Records, Tree, Ranked, RegistryMatches, Attach, Add;
    SnapshotRecorded(w, s, luck);
    SnapshotShaped(w, s, luck);
    var es, id := Records(s.stats.entries), NewId(w, s, luck);
    if id.Some? {
      SnapshotGraph(w, s, luck);
      StartRecorded(Snapshot(w, s, luck), id.value, launch);
      RegisteredLaunches(Snapshot(w, s, luck), id.value, launch);
      assert (es + SnapshotRecords(w, s, luck)) + [] == es + SnapshotRecords(w, s, luck);
    }
  }

  lemma RegisteredLaunches<S>(s: State<S>, id: Id, launch: Launch<S>)
    requires Shaped(s) && id in s.graph.nodes
    ensures Launches(s, id, launch) <==> !s.graph.nodes[id].isVirtual && launch.ok
  {
    hide Tree;
  }

  lemma {:induction false} RestoreRecorded<S>(w: World<S>, s: State<S>, id: Id, launch: Launch<S>)
    requires Shaped(s)
    ensures Records(Restore(w, s, id, launch).stats.entries)
      == Records(s.stats.entries) + RecordsOf(w, s, DoRestore(id, launch))
  {
    hide Records, Tree, RegistryMatches, Commands, Chain, Add, ExecAll, ReplayRecords;
    ShapedIsRanked(s);
    RestoreEffect(w, s, id, launch);
    var es := Records(s.stats.entries);
    assert es + [] == es;
    if Restores(s, id, launch) {
      ShapedIsPositioned(s);
      var top := Anchor(s.graph, id);
      var u := s.(live := LiveAfter(s, top.value, launch), stats := Add(s.stats, RESTORE, top, launch.elapsed));
      Recorded(s.stats, RESTORE, top, launch.elapsed);
      ReplayRecorded(w, u, Replay(s.graph, id));
      assert Restore(w, s, id, launch).stats == ExecAll(w, u, Replay(s.graph, id)).stats;
      assert u.live == Base(s, id);
    }
  }

  lemma {:induction false} NextRecorded<S>(w: World<S>, s: State<S>, op: Op<S>)
    requires Shaped(s) && FreshOp(w, s, op)
    ensures Ranked(s.graph)
    ensures Records(Next(w, s, op).stats.entries) == Records(s.stats.entries) + RecordsOf(w, s, op)
  {
    hide Records, Shaped, Tree, Ranked, Snapshot, Restore, CreateEnv, Add, SnapshotRecords, ReplayRecords, Fresh;
    ShapedIsRanked(s);
    match op
    case DoCmd(cmd) =>
      ShapedIsPositioned(s);
      Recorded(s.stats, EXEC, s.current, w.run(s.live, cmd).elapsed);
    case DoRestore(id, launch) => RestoreRecorded(w, s, id, launch);
    case DoSnapshot(luck) => SnapshotRecorded(w, s, luck);
    case DoStep(luck, launch) => StepRecorded(w, s, luck, launch);
  }

  /** The records of a run, operation by operation. */
  ghost function RunRecords<S>(w: World<S>, s: State<S>, ops: seq<Op<S>>): seq<Record>
    requires Shaped(s) && FreshRun(w, s, ops)
    decreases |ops|
  {
    if ops == [] then [] else
      NextShaped(w, s, ops[0]);
      RecordsOf(w, s, ops[0]) + RunRecords(w, Next(w, s, ops[0]), ops[1..])
  }

  /** The log is exact: after any fresh run it holds what it held before and then
      the records of the run, numbered on, with nothing added, lost or reordered. */
  lemma {:induction false} LogIsExact<S>(w: World<S>, s: State<S>, ops: seq<Op<S>>)
    requires Shaped(s) && FreshRun(w, s, ops)
    ensures Records(Run(w, s, ops).stats.entries) == Records(s.stats.entries) + RunRecords(w, s, ops)
    decreases |ops|
  {
    hide Records, Shaped, Next, FreshOp, RecordsOf;
    if ops == [] {
      assert Records(s.stats.entries) + [] == Records(s.stats.entries);
    } else {
      RunUncons(w, s, ops);
      NextRecorded(w, s, ops[0]);
      LogIsExact(w, Next(w, s, ops[0]), ops[1..]);
      var a, b, c := Records(s.stats.entries), RecordsOf(w, s, ops[0]), RunRecords(w, Next(w, s, ops[0]), ops[1..]);
      assert (a + b) + c == a + (b + c);
    }
  }

  /** The time logged for one operation. */
  function TimeIn(rs: seq<Record>, operation: Operation): real {
    if rs == [] then 0.0
    else TimeIn(rs[..|rs| - 1], operation) + if rs[|rs| - 1].operation == operation then rs[|rs| - 1].elapsed else 0.0
  }

  lemma {:induction false} TimeIsRecorded(es: seq<Entry>, operation: Operation)
    ensures TimeOf(es, operation) == TimeIn(Records(es), operation)
  {
    if es != [] {
      TimeIsRecorded(es[..|es| - 1], operation);
      assert Records(es)[..|es| - 1] == Records(es[..|es| - 1]);
    }
  }

  lemma {:induction false} TimeInBoth(a: seq<Record>, b: seq<Record>, operation: Operation)
    ensures TimeIn(a + b, operation) == TimeIn(a, operation) + TimeIn(b, operation)
  {
    if b == [] {
      assert a + b == a;
    } else {
      assert (a + b)[..|a + b| - 1] == a + b[..|b| - 1];
      TimeInBoth(a, b[..|b| - 1], operation);
    }
  }

  /** Conservation of time: over any fresh run the logged time of each operation
      grows by exactly the times of the run's calls and replayed commands. */
  lemma {:induction false} TimeConservation<S>(w: World<S>, s: State<S>, ops: seq<Op<S>>, operation: Operation)
    requires Shaped(s) && FreshRun(w, s, ops)
    ensures TimeOf(Run(w, s, ops).stats.entries, operation)
      == TimeOf(s.stats.entries, operation) + TimeIn(RunRecords(w, s, ops), operation)
  {
    hide Records, TimeIn, TimeOf, Run, FreshRun, RunRecords, Shaped;
    LogIsExact(w, s, ops);
    TimeIsRecorded(Run(w, s, ops).stats.entries, operation);
    TimeIsRecorded(s.stats.entries, operation);
    TimeInBoth(Records(s.stats.entries), RunRecords(w, s, ops), operation);
  }
}
