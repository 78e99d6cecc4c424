/** The benchmark log as an independent account of what the manager did. */
module Accounts {
  import opened Prelude
  import opened SnapshotTree
  import opened Benchmark
  import opened ManagerModel
  import opened Soundness
  import opened Policy
  import StatisticsReport

  // ---------- what each operation writes ----------

  lemma {:induction false} ReplayLogged<S>(w: World<S>, s: State<S>, cmds: seq<Command>, op: Operation)
    ensures var t := ExecAll(w, s, cmds);
      && (Numbered(s.stats) ==> Numbered(t.stats))
      && Count(t.stats.entries, op) == Count(s.stats.entries, op) + (if op == EXEC then |cmds| else 0)
      && TimeOf(t.stats.entries, op)
           == TimeOf(s.stats.entries, op) + (if op == EXEC then TimeSpent(w, s.live, cmds) else 0.0)
      && Targets(t.stats.entries, SNAPSHOT) == Targets(s.stats.entries, SNAPSHOT)
      && Targets(t.stats.entries, RESTORE) == Targets(s.stats.entries, RESTORE)
  {
    if cmds != [] {
      var n := |cmds| - 1;
      ReplayLogged(w, s, cmds[..n], op);
      ExecAllEffect(w, s, cmds[..n]);
      var m := ExecAll(w, s, cmds[..n]);
      var o := w.run(m.live, cmds[n]);
      Added(m.stats, EXEC, Truthy(m.current), o.elapsed, op);
      TargetAdded(m.stats, EXEC, Truthy(m.current), o.elapsed, SNAPSHOT);
      TargetAdded(m.stats, EXEC, Truthy(m.current), o.elapsed, RESTORE);
    }
  }

  /** The targets of one kind of entry, in order. */
  function Targets(es: seq<Entry>, op: Operation): seq<Option<Id>> {
    if es == [] then []
    else
      Targets(es[..|es| - 1], op) + if es[|es| - 1].operation == op then [es[|es| - 1].target] else []
  }

  lemma TargetAdded(l: Ledger, operation: Operation, target: Option<Id>, elapsed: real, op: Operation)
    ensures Targets(Add(l, operation, target, elapsed).entries, op)
      == Targets(l.entries, op) + (if operation == op then [target] else [])
  {
    var m := Add(l, operation, target, elapsed);
    assert m.entries[..|m.entries| - 1] == l.entries;
  }

  /** The physical nodes, in creation order. */
  function Physicals(g: Graph, order: seq<Id>): seq<Option<Id>>
    requires forall i :: 0 <= i < |order| ==> order[i] in g.nodes
  {
    if order == [] then []
    else
      var n := |order| - 1;
      Physicals(g, order[..n]) + if g.nodes[order[n]].isVirtual then [] else [Some(order[n])]
  }

  lemma {:induction false} PhysicalsSame(g: Graph, h: Graph, order: seq<Id>)
    requires forall i :: 0 <= i < |order| ==>
      order[i] in g.nodes && order[i] in h.nodes && g.nodes[order[i]].isVirtual == h.nodes[order[i]].isVirtual
    ensures Physicals(g, order) == Physicals(h, order)
  {
    if order != [] { PhysicalsSame(g, h, order[..|order| - 1]); }
  }

  // ---------- the account kept in every state ----------

  /** Entries are numbered from one; the "snapshot" entries are exactly the
      physical nodes after the root, in creation order; every "restore" entry
      names a physical node, even when a virtual one was asked for. */
  ghost predicate Balanced<S>(s: State<S>)
    requires Shaped(s)
  {
    && Numbered(s.stats)
    && Physicals(s.graph, s.graph.order) == [Some(s.graph.order[0])] + Targets(s.stats.entries, SNAPSHOT)
    && NamePhysicals(s.graph, Targets(s.stats.entries, RESTORE))
  }

  ghost predicate NamePhysicals(g: Graph, targets: seq<Option<Id>>) {
    forall i :: 0 <= i < |targets| ==>
      targets[i].Some? && targets[i].value in g.nodes && !g.nodes[targets[i].value].isVirtual
  }

  lemma NewPhysical(g: Graph, node: Node)
    requires Tree(g) && Fits(g, node)
    ensures var h := Attach(g, node);
      && (forall i :: 0 <= i < |h.order| ==> h.order[i] in h.nodes)
      && Physicals(h, h.order) == Physicals(g, g.order) + (if node.isVirtual then [] else [Some(node.id)])
  {
    AttachKeyed(g, node);
    var h := Attach(g, node);
    assert h.order[..|h.order| - 1] == g.order;
    PhysicalsSame(g, h, g.order);
  }

  lemma SnapshotLogged<S>(w: World<S>, s: State<S>, luck: Luck)
    ensures var t := Snapshot(w, s, luck);
      && (Numbered(s.stats) ==> Numbered(t.stats))
      && Targets(t.stats.entries, RESTORE) == Targets(s.stats.entries, RESTORE)
      && Targets(t.stats.entries, SNAPSHOT) == Targets(s.stats.entries, SNAPSHOT)
           + (if TakesPhysical(w, s, luck) && luck.commit.Some? then [NewId(w, s, luck)] else [])
  {
    if TakesPhysical(w, s, luck) && luck.commit.Some? {
      var id, elapsed := NewId(w, s, luck), luck.commit.value.1;
      Added(s.stats, SNAPSHOT, id, elapsed, SNAPSHOT);
      TargetAdded(s.stats, SNAPSHOT, id, elapsed, SNAPSHOT);
      TargetAdded(s.stats, SNAPSHOT, id, elapsed, RESTORE);
    }
  }

  lemma {:induction false} SnapshotBalanced<S>(w: World<S>, s: State<S>, luck: Luck)
    requires Shaped(s) && Fresh(w, s, luck) && Balanced(s)
    ensures Shaped(Snapshot(w, s, luck)) && Balanced(Snapshot(w, s, luck))
  {
    hide Targets, Physicals, Numbered, Attach, RegistryMatches, Tree, Fits;
    SnapshotShaped(w, s, luck);
    SnapshotLogged(w, s, luck);
    if NewId(w, s, luck).Some? {
      NodeFits(w, s, luck);
      NewPhysical(s.graph, NewNode(w, s, luck));
      SnapshotGraph(w, s, luck);
    }
  }

  lemma CreateEnvBalanced<S>(w: World<S>, s: State<S>, id: Id, launch: Launch<S>)
    requires Shaped(s) && Balanced(s)
    ensures Shaped(CreateEnv(s, id, launch)) && Balanced(CreateEnv(s, id, launch))
  {
    hide StateOf, Expected, Tree, Keeps, Targets, Count, TimeOf, Physicals, Numbered, RegistryMatches;
    CreateEnvEffect(w, s, id, launch);
    Added(s.stats, CONTAINER, Some(id), launch.elapsed, SNAPSHOT);
    TargetAdded(s.stats, CONTAINER, Some(id), launch.elapsed, SNAPSHOT);
    TargetAdded(s.stats, CONTAINER, Some(id), launch.elapsed, RESTORE);
  }

  /** The manager between the start of a restore and its replay. */
  ghost function Begun<S>(s: State<S>, id: Id, launch: Launch<S>): State<S>
    requires Shaped(s) && Restores(s, id, launch)
  {
    var top := Anchor(s.graph, id);
    s.(live := LiveAfter(s, top.value, launch), stats := Add(s.stats, RESTORE, top, launch.elapsed))
  }

  lemma {:induction false} RestoreIsBegunAndReplayed<S>(w: World<S>, s: State<S>, id: Id, launch: Launch<S>)
    requires Shaped(s) && Restores(s, id, launch)
    ensures Begun(s, id, launch).live == Base(s, id)
    ensures Restore(w, s, id, launch).stats == ExecAll(w, Begun(s, id, launch), Replay(s.graph, id)).stats
  {
    hide RegistryMatches, Tree, Commands, Chain, ExecAll, Add;
  }

  /** What a successful restore writes: one entry naming the physical ancestor,
      then one "exec" entry per replayed command. */
  lemma RestoreLogged<S>(w: World<S>, s: State<S>, id: Id, launch: Launch<S>, kind: Operation)
    requires Shaped(s) && Restores(s, id, launch)
    ensures var t := Restore(w, s, id, launch).stats; var top := Anchor(s.graph, id);
      && (Numbered(s.stats) ==> Numbered(t))
      && Targets(t.entries, SNAPSHOT) == Targets(s.stats.entries, SNAPSHOT)
      && Targets(t.entries, RESTORE) == Targets(s.stats.entries, RESTORE) + [top]
      && Count(t.entries, kind) == Count(s.stats.entries, kind)
           + (if kind == RESTORE then 1 else if kind == EXEC then |Replay(s.graph, id)| else 0)
      && TimeOf(t.entries, EXEC) == TimeOf(s.stats.entries, EXEC) + TimeSpent(w, Base(s, id), Replay(s.graph, id))
  {
    hide RegistryMatches, Tree, Commands, Chain, ExecAll, Add, Restore, Count, TimeOf, Targets, Numbered, TimeSpent;
    hide Base;
    ShapedIsRanked(s);
    var top, u, l := Anchor(s.graph, id), Begun(s, id, launch), launch.elapsed;
    RestoreIsBegunAndReplayed(w, s, id, launch);
    Added(s.stats, RESTORE, top, l, kind);
    Added(s.stats, RESTORE, top, l, EXEC);
    TargetAdded(s.stats, RESTORE, top, l, SNAPSHOT);
    TargetAdded(s.stats, RESTORE, top, l, RESTORE);
    ReplayLogged(w, u, Replay(s.graph, id), kind);
    ReplayLogged(w, u, Replay(s.graph, id), EXEC);
  }

  /** One target for each of `n` commands. */
  function Repeated(target: Option<Id>, n: nat): (r: seq<Option<Id>>)
    ensures |r| == n && forall i :: 0 <= i < n ==> r[i] == target
  {
    if n == 0 then [] else Repeated(target, n - 1) + [target]
  }

  lemma {:induction false} ReplayBooked<S>(w: World<S>, s: State<S>, cmds: seq<Command>)
    ensures ExecAll(w, s, cmds).current == s.current
    ensures Targets(ExecAll(w, s, cmds).stats.entries, EXEC)
      == Targets(s.stats.entries, EXEC) + Repeated(Truthy(s.current), |cmds|)
  {
    hide Targets, Add, Truthy;
    if cmds != [] {
      var n := |cmds| - 1;
      ReplayBooked(w, s, cmds[..n]);
      var m := ExecAll(w, s, cmds[..n]);
      TargetAdded(m.stats, EXEC, Truthy(s.current), w.run(m.live, cmds[n]).elapsed, EXEC);
    }
  }

  /** The commands that a restore replays are logged under the position the
      manager is leaving, not under the snapshot being restored. */
  lemma ReplayIsBookedOnTheOldPosition<S>(w: World<S>, s: State<S>, id: Id, launch: Launch<S>)
    requires Shaped(s) && Restores(s, id, launch)
    ensures Targets(Restore(w, s, id, launch).stats.entries, EXEC)
      == Targets(s.stats.entries, EXEC) + Repeated(Truthy(s.current), |Replay(s.graph, id)|)
  {
    hide RegistryMatches, Tree, Commands, Chain, ExecAll, Add, Restore, Targets, Truthy, Repeated, Base;
    ShapedIsRanked(s);
    RestoreIsBegunAndReplayed(w, s, id, launch);
    TargetAdded(s.stats, RESTORE, Anchor(s.graph, id), launch.elapsed, EXEC);
    ReplayBooked(w, Begun(s, id, launch), Replay(s.graph, id));
  }

  lemma RestoreBalanced<S>(w: World<S>, s: State<S>, id: Id, launch: Launch<S>)
    requires Shaped(s) && Balanced(s)
    ensures Shaped(Restore(w, s, id, launch)) && Balanced(Restore(w, s, id, launch))
  {
    hide Targets, Numbered, RunAll, Commands, Restore;
    RestoreEffect(w, s, id, launch);
    if Restores(s, id, launch) {
      RestoreLogged(w, s, id, launch, RESTORE);
    }
  }

  lemma {:induction false} NextBalanced<S>(w: World<S>, s: State<S>, op: Op<S>)
    requires Shaped(s) && FreshOp(w, s, op) && Balanced(s)
    ensures Shaped(Next(w, s, op)) && Balanced(Next(w, s, op))
  {
    match op
    case DoCmd(cmd) =>
      assert ExecAll(w, s, [cmd]) == Exec(w, s, cmd) by { assert [cmd][..0] == []; }
      ReplayLogged(w, s, [cmd], EXEC);
    case DoRestore(id, launch) => RestoreBalanced(w, s, id, launch);
    case DoSnapshot(luck) => SnapshotBalanced(w, s, luck);
    case DoStep(luck, launch) =>
      SnapshotBalanced(w, s, luck);
      if NewId(w, s, luck).Some? {
        CreateEnvBalanced(w, Snapshot(w, s, luck), NewId(w, s, luck).value, launch);
      }
  }

  lemma {:induction false} RunBalanced<S>(w: World<S>, s: State<S>, ops: seq<Op<S>>)
    requires Shaped(s) && FreshRun(w, s, ops) && Balanced(s)
    ensures Balanced(Run(w, s, ops))
    decreases |ops|
  {
    if ops != [] {
      NextShaped(w, s, ops[0]);
      NextBalanced(w, s, ops[0]);
      RunBalanced(w, Next(w, s, ops[0]), ops[1..]);
    }
  }

  // ---------- the account of a whole run ----------

  /** The snapshot would be physical and the backend takes it. */
  predicate Commits<S>(w: World<S>, s: State<S>, luck: Luck) {
    TakesPhysical(w, s, luck) && luck.commit.Some?
  }

  /** Whether the operation adds an entry of the kind itself, replay aside. */
  ghost function Direct<S>(w: World<S>, s: State<S>, op: Op<S>, kind: Operation): nat
    requires Ranked(s.graph)
  {
    match kind
    case EXEC => if op.DoCmd? then 1 else 0
    case RESTORE => if op.DoRestore? && Restores(s, op.id, op.launch) then 1 else 0
    case SNAPSHOT => if (op.DoSnapshot? || op.DoStep?) && Commits(w, s, op.luck) then 1 else 0
    case CONTAINER => if op.DoStep? && Commits(w, s, op.luck) && op.launch.ok then 1 else 0
  }

  /** The commands a restore replays. */
  ghost function Replayed<S>(s: State<S>, op: Op<S>): seq<Command>
    requires Ranked(s.graph)
  {
    if op.DoRestore? && Restores(s, op.id, op.launch) then Replay(s.graph, op.id) else []
  }

  /** Entries of a kind that a run should write: user commands and replayed
      commands for "exec", successful calls for the others. */
  ghost function Due<S>(w: World<S>, s: State<S>, ops: seq<Op<S>>, kind: Operation): nat
    requires Shaped(s) && FreshRun(w, s, ops)
    decreases |ops|
  {
    if ops == [] then 0 else
      NextShaped(w, s, ops[0]);
      Direct(w, s, ops[0], kind) + (if kind == EXEC then |Replayed(s, ops[0])| else 0)
      + Due(w, Next(w, s, ops[0]), ops[1..], kind)
  }

  lemma SnapshotCounted<S>(w: World<S>, s: State<S>, luck: Luck, kind: Operation)
    ensures Count(Snapshot(w, s, luck).stats.entries, kind) == Count(s.stats.entries, kind)
      + (if kind == SNAPSHOT && TakesPhysical(w, s, luck) && luck.commit.Some? then 1 else 0)
    ensures kind == EXEC ==> TimeOf(Snapshot(w, s, luck).stats.entries, kind) == TimeOf(s.stats.entries, kind)
  {
    if TakesPhysical(w, s, luck) && luck.commit.Some? {
      Added(s.stats, SNAPSHOT, NewId(w, s, luck), luck.commit.value.1, kind);
    }
  }

  lemma StartCounted<S>(s: State<S>, id: Id, launch: Launch<S>, kind: Operation)
    ensures Count(CreateEnv(s, id, launch).stats.entries, kind) == Count(s.stats.entries, kind)
      + (if kind == CONTAINER && Launches(s, id, launch) then 1 else 0)
    ensures TimeOf(CreateEnv(s, id, launch).stats.entries, EXEC) == TimeOf(s.stats.entries, EXEC)
    ensures Targets(CreateEnv(s, id, launch).stats.entries, CONTAINER) == Targets(s.stats.entries, CONTAINER)
      + (if Launches(s, id, launch) then [Some(id)] else [])
  {
    TargetAdded(s.stats, CONTAINER, Some(id), launch.elapsed, CONTAINER);
    Added(s.stats, CONTAINER, Some(id), launch.elapsed, kind);
    Added(s.stats, CONTAINER, Some(id), launch.elapsed, EXEC);
  }

  lemma {:induction false} NextCounted<S>(w: World<S>, s: State<S>, op: Op<S>, kind: Operation)
    requires Shaped(s) && FreshOp(w, s, op)
    ensures Count(Next(w, s, op).stats.entries, kind) == Count(s.stats.entries, kind)
      + Direct(w, s, op, kind) + (if kind == EXEC then |Replayed(s, op)| else 0)
  {
    hide Count, TimeOf, Commands, RunAll, Shaped, Tree, Attach, Snapshot, Restore, Restores, Fresh, Add;
    ShapedIsRanked(s);
    match op
    case DoCmd(cmd) =>
      var o := w.run(s.live, cmd);
      Added(s.stats, EXEC, Truthy(s.current), o.elapsed, kind);
    case DoRestore(id, launch) =>
      RestoreEffect(w, s, id, launch);
      if Restores(s, id, launch) { RestoreLogged(w, s, id, launch, kind); }
    case DoSnapshot(luck) => SnapshotCounted(w, s, luck, kind);
    case DoStep(luck, launch) =>
      SnapshotCounted(w, s, luck, kind);
      var id := NewId(w, s, luck);
      if id.Some? {
        StepLaunches(w, s, luck, launch);
        StartCounted(Snapshot(w, s, luck), id.value, launch, kind);
      }
  }

  /** `step` starts an environment exactly when the snapshot was physical. */
  lemma StepLaunches<S>(w: World<S>, s: State<S>, luck: Luck, launch: Launch<S>)
    requires Shaped(s) && Fresh(w, s, luck) && NewId(w, s, luck).Some?
    ensures Launches(Snapshot(w, s, luck), NewId(w, s, luck).value, launch) <==> TakesPhysical(w, s, luck) && launch.ok
  {
    SnapshotShaped(w, s, luck);
    SnapshotGraph(w, s, luck);
  }

  /** Conservation: over any run the log gains exactly one entry per successful
      call and one "exec" entry per user command and per replayed command. */
  lemma {:induction false} LedgerConservation<S>(w: World<S>, s: State<S>, ops: seq<Op<S>>, kind: Operation)
    requires Shaped(s) && FreshRun(w, s, ops)
    ensures Count(Run(w, s, ops).stats.entries, kind) == Count(s.stats.entries, kind) + Due(w, s, ops, kind)
    decreases |ops|
  {
    if ops != [] {
      NextShaped(w, s, ops[0]);
      NextCounted(w, s, ops[0], kind);
      LedgerConservation(w, Next(w, s, ops[0]), ops[1..], kind);
    }
  }

  // ---------- the statistics report of a reachable manager ----------

  lemma {:induction false} TargetsCounted(es: seq<Entry>, op: Operation)
    ensures |Targets(es, op)| == Count(es, op)
  {
    if es != [] { TargetsCounted(es[..|es| - 1], op); }
  }

  lemma {:induction false} PhysicalsCounted(g: Graph, order: seq<Id>)
    requires Distinct(order) && forall i :: 0 <= i < |order| ==> order[i] in g.nodes
    ensures |set id | id in order && !g.nodes[id].isVirtual| == |Physicals(g, order)|
  {
    if order != [] {
      var n := |order| - 1;
      PhysicalsCounted(g, order[..n]);
      OneMorePhysical(g, order[..n], order[n]);
      assert order == order[..n] + [order[n]];
    }
  }

  lemma OneMorePhysical(g: Graph, order: seq<Id>, id: Id)
    requires id !in order && id in g.nodes && forall i :: 0 <= i < |order| ==> order[i] in g.nodes
    ensures |set x | x in order + [id] && !g.nodes[x].isVirtual|
      == |set x | x in order && !g.nodes[x].isVirtual| + if g.nodes[id].isVirtual then 0 else 1
  {
    var before := set x | x in order && !g.nodes[x].isVirtual;
    assert (set x | x in order + [id] && !g.nodes[x].isVirtual)
      == if g.nodes[id].isVirtual then before else before + {id};
  }

  lemma {:induction false} RegistrySize<S>(s: State<S>)
    requires Shaped(s)
    ensures |s.snapshots| == |Physicals(s.graph, s.graph.order)|
  {
    NoDupMeansDistinct(s.graph.order);
    PhysicalsCounted(s.graph, s.graph.order);
    assert s.snapshots.Keys == set id | id in s.graph.order && !s.graph.nodes[id].isVirtual;
  }

  /** After any run the statistics report counts as many snapshots as there are
      images in the registry besides the root's, and the calls of the run for
      every operation. */
  lemma {:induction false} ReportCountsTheRun<S>(w: World<S>, s: State<S>, ops: seq<Op<S>>, kind: Operation)
    requires Shaped(s) && FreshRun(w, s, ops) && Balanced(s)
    ensures
      var t := Run(w, s, ops);
      && |StatisticsReport.Times(t.stats.entries, SNAPSHOT)| == |t.snapshots| - 1
      && |StatisticsReport.Times(t.stats.entries, kind)|
           == |StatisticsReport.Times(s.stats.entries, kind)| + Due(w, s, ops, kind)
      && StatisticsReport.Sum(StatisticsReport.Times(t.stats.entries, kind)) == TimeOf(t.stats.entries, kind)
  {
    hide Run, FreshRun, Due, Targets, Physicals, Count, TimeOf, RegistryMatches, Tree;
    var t := Run(w, s, ops);
    RunBalanced(w, s, ops);
    LedgerConservation(w, s, ops, kind);
    RegistrySize(t);
    TargetsCounted(t.stats.entries, SNAPSHOT);
    StatisticsReport.ReportAgreesWithLog(t.stats.entries, SNAPSHOT);
    StatisticsReport.ReportAgreesWithLog(t.stats.entries, kind);
    StatisticsReport.ReportAgreesWithLog(s.stats.entries, kind);
  }

  // ---------- the amortised number of physical snapshots ----------

  /** Every physical snapshot is paid for by a threshold's worth of execution. */
  ghost predicate Paid<S>(s: State<S>, threshold: real) {
    threshold * Count(s.stats.entries, SNAPSHOT) as real + s.cum <= TimeOf(s.stats.entries, EXEC)
  }

  lemma OneMore(threshold: real, n: nat)
    ensures threshold * (n + 1) as real == threshold * n as real + threshold
  {
  }

  lemma PaidKept<S>(s: State<S>, t: State<S>, threshold: real)
    requires Paid(s, threshold) && Count(t.stats.entries, SNAPSHOT) == Count(s.stats.entries, SNAPSHOT)
    requires t.cum - s.cum <= TimeOf(t.stats.entries, EXEC) - TimeOf(s.stats.entries, EXEC)
    ensures Paid(t, threshold)
  {
  }

  lemma {:induction false} NextPaid<S>(w: World<S>, s: State<S>, op: Op<S>)
    requires Shaped(s) && FreshOp(w, s, op) && w.decider.ThresholdDecider? && Paid(s, w.decider.threshold)
    ensures Paid(Next(w, s, op), w.decider.threshold)
  {
    hide Count, TimeOf, Commands, RunAll, CostOf, Attach, Paid;
    match op
    case DoCmd(cmd) =>
      var o := w.run(s.live, cmd);
      Added(s.stats, EXEC, Truthy(s.current), o.elapsed, EXEC);
      Added(s.stats, EXEC, Truthy(s.current), o.elapsed, SNAPSHOT);
      PaidKept(s, Next(w, s, op), w.decider.threshold);
    case DoRestore(id, launch) =>
      RestoreEffect(w, s, id, launch);
      if Restores(s, id, launch) { RestoreLogged(w, s, id, launch, SNAPSHOT); }
      PaidKept(s, Next(w, s, op), w.decider.threshold);
    case DoSnapshot(luck) => SnapshotPaid(w, s, luck);
    case DoStep(luck, launch) =>
      SnapshotPaid(w, s, luck);
      if NewId(w, s, luck).Some? {
        StartCounted(Snapshot(w, s, luck), NewId(w, s, luck).value, launch, SNAPSHOT);
        PaidKept(Snapshot(w, s, luck), Next(w, s, op), w.decider.threshold);
      }
  }

  lemma {:induction false} SnapshotPaid<S>(w: World<S>, s: State<S>, luck: Luck)
    requires w.decider.ThresholdDecider? && Paid(s, w.decider.threshold)
    ensures Paid(Snapshot(w, s, luck), w.decider.threshold)
  {
    hide Count, TimeOf, Attach;
    SnapshotCounted(w, s, luck, SNAPSHOT);
    SnapshotCounted(w, s, luck, EXEC);
    OneMore(w.decider.threshold, Count(s.stats.entries, SNAPSHOT));
  }

  /** Amortised bound: threshold times the number of physical snapshots, plus
      the counter, never exceeds the logged execution time. */
  lemma {:induction false} SnapshotsArePaidFor<S>(w: World<S>, s: State<S>, ops: seq<Op<S>>)
    requires Shaped(s) && FreshRun(w, s, ops) && w.decider.ThresholdDecider? && Paid(s, w.decider.threshold)
    ensures Paid(Run(w, s, ops), w.decider.threshold)
    decreases |ops|
  {
    if ops != [] {
      NextShaped(w, s, ops[0]);
      NextPaid(w, s, ops[0]);
      SnapshotsArePaidFor(w, Next(w, s, ops[0]), ops[1..]);
    }
  }

  // ---------- where the accounts start ----------

  /** A fresh manager meets every bound of this file and of `Policy`. */
  lemma FreshManagerIsBalanced<S>(w: World<S>, tag: Id, images: map<Image, S>, live: S, threshold: real)
    requires ImageName(w, tag) in images
    ensures var s := Attached(w, tag, images, live);
      Shaped(s) && Balanced(s) && Paid(s, threshold) && Bounded(w, s, threshold) && Slack(w, s) == 0.0
  {
    var s := Attached(w, tag, images, live);
    assert s.graph.order == [BASE];
    assert Physicals(s.graph, s.graph.order[..0]) == [];
    AttachedShaped(w, tag, images, live);
    assert Count(s.stats.entries, SNAPSHOT) == 0;
  }
}
