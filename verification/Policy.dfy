/** What the cumulative time counter and the threshold policy guarantee about
    replay cost, and what they do not. */
module Policy {
  import opened Prelude
  import opened SnapshotTree
  import opened Decimal
  import opened ManagerModel
  import opened Soundness

  /** The counted cost of restoring a node: its replay from the nearest image. */
  ghost function PathCost<S>(w: World<S>, s: State<S>, id: Id): real
    requires Shaped(s) && id in s.graph.nodes
  {
    CostOf(w, Base(s, id), Replay(s.graph, id))
  }

  /** The counted cost of the pending log. */
  ghost function PendingCost<S>(w: World<S>, s: State<S>): real
    requires Shaped(s)
  {
    CostOf(w, StateOf(w, s, s.last.value), s.log)
  }

  /** How far the counter runs ahead of what a virtual snapshot would cost now. */
  ghost function Slack<S>(w: World<S>, s: State<S>): real
    requires Shaped(s)
  {
    s.cum - PathCost(w, s, s.last.value) - PendingCost(w, s)
  }

  lemma {:induction false} SnapshotSlack<S>(w: World<S>, s: State<S>, luck: Luck)
    requires Shaped(s) && Fresh(w, s, luck) && NewId(w, s, luck).Some?
    ensures var t := Snapshot(w, s, luck); var id := NewId(w, s, luck).value;
      && Shaped(t) && id in t.graph.nodes
      && PathCost(w, t, id) ==
           (if TakesPhysical(w, s, luck) then 0.0 else PathCost(w, s, s.last.value) + PendingCost(w, s))
      && Slack(w, t) == (if TakesPhysical(w, s, luck) then 0.0 else Slack(w, s))
  {
    hide Commands, RunAll, RegistryMatches, Attach;
    SnapshotCaptures(w, s, luck);
    RunAllSplit(w, Base(s, s.last.value), Replay(s.graph, s.last.value), s.log);
  }

  lemma ExecSlack<S>(w: World<S>, s: State<S>, cmd: Command)
    requires Shaped(s)
    ensures Shaped(Exec(w, s, cmd))
    ensures Slack(w, Exec(w, s, cmd))
      == Slack(w, s) + Charge(w.run(s.live, cmd)) - Charge(w.run(Expected(w, s), cmd))
  {
    RunAllOne(w, StateOf(w, s, s.last.value), s.log, cmd);
  }

  /** A restore does not reset the counter: everything counted before it stays
      on top of the cost of the restored node. */
  lemma RestoreSlack<S>(w: World<S>, s: State<S>, id: Id, launch: Launch<S>)
    requires Shaped(s) && Restores(s, id, launch)
    ensures Shaped(Restore(w, s, id, launch)) && Slack(w, Restore(w, s, id, launch)) == s.cum
  {
    RestoreEffect(w, s, id, launch);
  }

  /** The equality that the documentation describes, counter equals the cost of
      the path since the last physical snapshot, survives a restore exactly
      when the counter was zero. */
  lemma CounterExactAfterRestoreIff<S>(w: World<S>, s: State<S>, id: Id, launch: Launch<S>)
    requires Shaped(s) && Restores(s, id, launch)
    ensures var t := Restore(w, s, id, launch);
      Shaped(t) && (t.cum == PathCost(w, t, id) + PendingCost(w, t) <==> s.cum == 0.0)
  {
    RestoreEffect(w, s, id, launch);
    RestoreSlack(w, s, id, launch);
  }

  lemma SameSlack<S>(w: World<S>, s: State<S>, t: State<S>)
    requires Shaped(s) && Shaped(t) && t.graph == s.graph && t.snapshots == s.snapshots && t.store == s.store
    requires t.last == s.last && t.log == s.log && t.cum == s.cum
    ensures Slack(w, t) == Slack(w, s)
  {
    hide RegistryMatches, Tree, Commands, CostOf, RunAll, Anchor;
    ShapedIsRanked(s);
    assert Base(t, s.last.value) == Base(s, s.last.value);
  }

  lemma {:induction false} StepSlack<S>(w: World<S>, s: State<S>, luck: Luck, launch: Launch<S>)
    requires Shaped(s) && Fresh(w, s, luck)
    ensures var t := Next(w, s, DoStep(luck, launch));
      && Shaped(t) && t.cum == Snapshot(w, s, luck).cum && Shaped(Snapshot(w, s, luck))
      && Slack(w, t) == Slack(w, Snapshot(w, s, luck))
      && t.graph == Snapshot(w, s, luck).graph
      && t.snapshots == Snapshot(w, s, luck).snapshots && t.store == Snapshot(w, s, luck).store
  {
    hide Slack, StateOf, Expected, Shaped, Tree, Ranked, Snapshot, Keeps, Preserves, NewId, Fresh;
    ShapedIsRanked(s);
    SnapshotKeepsAll(w, s, luck);
    var m, id := Snapshot(w, s, luck), NewId(w, s, luck);
    if id.Some? {
      CreateEnvEffect(w, m, id.value, launch);
      SameSlack(w, m, CreateEnv(m, id.value, launch));
    }
  }

  /** By how much the live environment charges more for the operation's command
      than the replay will. */
  ghost function Gap<S>(w: World<S>, s: State<S>, op: Op<S>): real
    requires Shaped(s)
  {
    if op.DoCmd? then Charge(w.run(s.live, op.cmd)) - Charge(w.run(Expected(w, s), op.cmd)) else 0.0
  }

  /** Where an operation moves the slack `x`: a command by its gap, a successful
      restore to the old counter, a physical snapshot to zero. */
  ghost function Moved<S>(w: World<S>, s: State<S>, op: Op<S>, x: real): real
    requires Shaped(s)
  {
    match op
    case DoCmd(_) => x + Gap(w, s, op)
    case DoRestore(id, launch) => if id in s.graph.nodes && launch.ok then s.cum else x
    case DoSnapshot(luck) => if TakesPhysical(w, s, luck) && luck.commit.Some? then 0.0 else x
    case DoStep(luck, _) => if TakesPhysical(w, s, luck) && luck.commit.Some? then 0.0 else x
  }

  /** The exact law of the counter, operation by operation, in every well-shaped
      state. A command moves the slack only where the live environment charges
      otherwise than the expected one, so never in a sound state. */
  lemma {:induction false} SlackLaw<S>(w: World<S>, s: State<S>, op: Op<S>)
    requires Shaped(s) && FreshOp(w, s, op)
    ensures Shaped(Next(w, s, op)) && Slack(w, Next(w, s, op)) == Moved(w, s, op, Slack(w, s))
    ensures Sound(w, s) ==> Gap(w, s, op) == 0.0
  {
    hide Slack, StateOf, Expected, Tree, RegistryMatches, Attach, Exec, Restore, Restores, Fresh, CostOf, RunAll;
    NextShaped(w, s, op);
    ShapedIsRanked(s);
    match op
    case DoCmd(cmd) => ExecSlack(w, s, cmd);
    case DoRestore(id, launch) =>
      RestoreEffect(w, s, id, launch);
      if Restores(s, id, launch) { RestoreSlack(w, s, id, launch); } else { SameSlack(w, s, Next(w, s, op)); }
    case DoSnapshot(luck) =>
      if NewId(w, s, luck).Some? { SnapshotSlack(w, s, luck); }
    case DoStep(luck, launch) =>
      StepSlack(w, s, luck, launch);
      if NewId(w, s, luck).Some? { SnapshotSlack(w, s, luck); }
  }

  /** Where a run moves the slack: what the last restore or physical snapshot
      left of it, plus the gaps of the commands since. */
  ghost function RunMoved<S>(w: World<S>, s: State<S>, ops: seq<Op<S>>, x: real): real
    requires Shaped(s) && FreshRun(w, s, ops)
    decreases |ops|
  {
    if ops == [] then x else
      NextShaped(w, s, ops[0]);
      RunMoved(w, Next(w, s, ops[0]), ops[1..], Moved(w, s, ops[0], x))
  }

  /** The law over runs. In any fresh run, whatever its failed starts do, the
      counter equals the cost of the path to `last` plus the cost of the log
      exactly when the run moved the slack to zero. */
  lemma {:induction false} CounterExactIff<S>(w: World<S>, s: State<S>, ops: seq<Op<S>>)
    requires Shaped(s) && FreshRun(w, s, ops)
    ensures var t := Run(w, s, ops);
      && Slack(w, t) == RunMoved(w, s, ops, Slack(w, s))
      && (t.cum == PathCost(w, t, t.last.value) + PendingCost(w, t) <==> RunMoved(w, s, ops, Slack(w, s)) == 0.0)
    decreases |ops|
  {
    hide NoDup, Keyed, RegistryMatches, StateOf, PathCost, PendingCost, Moved, Next, FreshOp;
    if ops != [] {
      NextShaped(w, s, ops[0]);
      SlackLaw(w, s, ops[0]);
      CounterExactIff(w, Next(w, s, ops[0]), ops[1..]);
    }
  }

  // ---------- runs that charge enough ----------

  /** No command of the run costs less in the live environment than it will in
      the replay, or, if `exactly`, they all cost the same. */
  ghost predicate ChargesEnough<S>(w: World<S>, s: State<S>, ops: seq<Op<S>>, exactly: bool)
    requires Shaped(s) && FreshRun(w, s, ops)
    decreases |ops|
  {
    ops == [] ||
    (&& 0.0 <= Gap(w, s, ops[0]) && (exactly ==> Gap(w, s, ops[0]) == 0.0)
     && (NextShaped(w, s, ops[0]); ChargesEnough(w, Next(w, s, ops[0]), ops[1..], exactly)))
  }

  /** Every legal run charges exactly: its states are sound. */
  lemma {:induction false} LegalRunsChargeExactly<S>(w: World<S>, s: State<S>, ops: seq<Op<S>>)
    requires Sound(w, s) && LegalRun(w, s, ops)
    ensures ChargesEnough(w, s, ops, true) && ChargesEnough(w, s, ops, false)
    decreases |ops|
  {
    hide NoDup, Keyed, RegistryMatches, StateOf, Expected, Next, Fresh, Gap, Slack, Moved;
    if ops != [] {
      NextSound(w, s, ops[0]);
      SlackLaw(w, s, ops[0]);
      LegalRunsChargeExactly(w, Next(w, s, ops[0]), ops[1..]);
    }
  }

  /** Without restores, and if every command charges what its replay will, the
      counter equals the cost of the path to `last` plus the cost of the log,
      under any policy. */
  lemma {:induction false} CounterExactWithoutRestores<S>(w: World<S>, s: State<S>, ops: seq<Op<S>>)
    requires Shaped(s) && FreshRun(w, s, ops) && Slack(w, s) == 0.0
    requires ChargesEnough(w, s, ops, true)
    requires forall i :: 0 <= i < |ops| ==> !ops[i].DoRestore?
    ensures var t := Run(w, s, ops); t.cum == PathCost(w, t, t.last.value) + PendingCost(w, t)
    decreases |ops|
  {
    hide NoDup, Keyed, RegistryMatches, StateOf, PathCost, PendingCost, Next, FreshOp, Gap;
    if ops != [] {
      NextShaped(w, s, ops[0]);
      SlackLaw(w, s, ops[0]);
      CounterExactWithoutRestores(w, Next(w, s, ops[0]), ops[1..]);
    }
  }

  // ---------- bounded replay ----------

  /** No virtual node costs as much as `bound` to replay. */
  ghost predicate NodesBelow<S>(w: World<S>, s: State<S>, bound: real)
    requires Shaped(s)
  {
    forall id {:trigger PathCost(w, s, id)} ::
      id in s.graph.nodes && s.graph.nodes[id].isVirtual ==> PathCost(w, s, id) < bound
  }

  /** The counter never falls below the path cost of the position plus the log,
      and no virtual node costs as much as `bound` to replay. */
  ghost predicate Bounded<S>(w: World<S>, s: State<S>, bound: real)
    requires Shaped(s)
  {
    0.0 <= Slack(w, s) && 0.0 <= s.cum && NodesBelow(w, s, bound)
  }

  lemma {:induction false} OldNodesCostTheSame<S>(w: World<S>, s: State<S>, luck: Luck, id: Id)
    requires Shaped(s) && Fresh(w, s, luck) && id in s.graph.nodes && Shaped(Snapshot(w, s, luck))
    ensures id in Snapshot(w, s, luck).graph.nodes && PathCost(w, Snapshot(w, s, luck), id) == PathCost(w, s, id)
    ensures Snapshot(w, s, luck).graph.nodes[id].isVirtual == s.graph.nodes[id].isVirtual
  {
    SnapshotKeeps(w, s, luck, id);
    SnapshotShaped(w, s, luck);
  }

  lemma {:induction false} SameGraphSameCost<S>(w: World<S>, s: State<S>, t: State<S>, id: Id)
    requires Shaped(s) && Shaped(t) && t.graph == s.graph && t.snapshots == s.snapshots && t.store == s.store
    requires id in s.graph.nodes
    ensures PathCost(w, t, id) == PathCost(w, s, id)
  {
    hide RegistryMatches, Tree, Commands, CostOf, Anchor;
    ShapedIsRanked(s);
    assert Base(t, id) == Base(s, id);
  }

  /** No operation changes what an older node costs. */
  lemma {:induction false} NextCostsTheSame<S>(w: World<S>, s: State<S>, op: Op<S>, id: Id)
    requires Shaped(s) && FreshOp(w, s, op) && id in s.graph.nodes
    ensures var t := Next(w, s, op);
      && Shaped(t) && id in t.graph.nodes
      && PathCost(w, t, id) == PathCost(w, s, id) && t.graph.nodes[id].isVirtual == s.graph.nodes[id].isVirtual
  {
    hide StateOf, PathCost, Slack, Base, Tree, RegistryMatches, Snapshot, Restore, Restores, CostOf, RunAll, Fresh;
    ShapedIsRanked(s);
    NextShaped(w, s, op);
    var t := Next(w, s, op);
    match op
    case DoCmd(cmd) => SameGraphSameCost(w, s, t, id);
    case DoRestore(other, launch) =>
      RestoreEffect(w, s, other, launch);
      SameGraphSameCost(w, s, t, id);
    case DoSnapshot(luck) => OldNodesCostTheSame(w, s, luck, id);
    case DoStep(luck, launch) =>
      StepSlack(w, s, luck, launch);
      OldNodesCostTheSame(w, s, luck, id);
      SameGraphSameCost(w, Snapshot(w, s, luck), t, id);
  }

  lemma {:induction false} RunCostsTheSame<S>(w: World<S>, s: State<S>, ops: seq<Op<S>>, id: Id)
    requires Shaped(s) && FreshRun(w, s, ops) && id in s.graph.nodes
    ensures var t := Run(w, s, ops);
      && id in t.graph.nodes
      && PathCost(w, t, id) == PathCost(w, s, id) && t.graph.nodes[id].isVirtual == s.graph.nodes[id].isVirtual
    decreases |ops|
  {
    hide Shaped, PathCost, Next, FreshOp;
    if ops != [] {
      NextShaped(w, s, ops[0]);
      ShapedIsRanked(s);
      NextCostsTheSame(w, s, ops[0], id);
      RunCostsTheSame(w, Next(w, s, ops[0]), ops[1..], id);
    }
  }

  /** The operation takes a virtual snapshot. */
  predicate MakesVirtual<S>(w: World<S>, s: State<S>, op: Op<S>) {
    (op.DoSnapshot? || op.DoStep?) && !TakesPhysical(w, s, op.luck)
  }

  /** What a new virtual node costs: the counter minus the slack. */
  lemma {:induction false} NewNodeCost<S>(w: World<S>, s: State<S>, op: Op<S>)
    requires Shaped(s) && FreshOp(w, s, op) && MakesVirtual(w, s, op)
    ensures var t := Next(w, s, op); var id := Id(VirtualId(op.luck.ms));
      && Shaped(t) && id in t.graph.nodes && t.graph.nodes[id].isVirtual
      && t.graph.nodes.Keys == s.graph.nodes.Keys + {id}
      && PathCost(w, t, id) == s.cum - Slack(w, s)
  {
    hide StateOf, PathCost, PendingCost, Base, Tree, RegistryMatches, Snapshot, CostOf, RunAll, Fresh, Attach;
    hide VirtualId;
    ShapedIsRanked(s);
    SnapshotSlack(w, s, op.luck);
    SnapshotGraph(w, s, op.luck);
    if op.DoStep? {
      StepSlack(w, s, op.luck, op.launch);
      SameGraphSameCost(w, Snapshot(w, s, op.luck), Next(w, s, op), Id(VirtualId(op.luck.ms)));
    }
  }

  /** The nodes after an operation that takes no virtual snapshot. */
  lemma {:induction false} NoNewVirtual<S>(w: World<S>, s: State<S>, op: Op<S>, id: Id)
    requires Shaped(s) && FreshOp(w, s, op) && !MakesVirtual(w, s, op)
    requires id in Next(w, s, op).graph.nodes && Next(w, s, op).graph.nodes[id].isVirtual
    ensures id in s.graph.nodes
  {
    hide Shaped, Tree, Ranked, Restore, Restores, Fresh, Attach;
    match op
    case DoCmd(cmd) =>
    case DoRestore(other, launch) => RestoreEffect(w, s, other, launch);
    case DoSnapshot(luck) => if NewId(w, s, luck).Some? { SnapshotGraph(w, s, luck); }
    case DoStep(luck, launch) => if NewId(w, s, luck).Some? { SnapshotGraph(w, s, luck); }
  }

  /** The virtual snapshot an operation takes, if any, costs less than `bound`:
      the slack `x` exceeds what the counter has beyond it. */
  ghost predicate Affordable<S>(w: World<S>, s: State<S>, op: Op<S>, bound: real, x: real) {
    MakesVirtual(w, s, op) ==> s.cum - bound < x
  }

  lemma {:induction false} NextBelowIff<S>(w: World<S>, s: State<S>, op: Op<S>, bound: real)
    requires Shaped(s) && FreshOp(w, s, op) && NodesBelow(w, s, bound)
    ensures Shaped(Next(w, s, op))
    ensures NodesBelow(w, Next(w, s, op), bound) <==> Affordable(w, s, op, bound, Slack(w, s))
  {
    hide Shaped, Tree, Ranked, PathCost, Slack, Next, FreshOp, MakesVirtual, VirtualId;
    NextShaped(w, s, op);
    ShapedIsRanked(s);
    var t := Next(w, s, op);
    forall id | id in s.graph.nodes
      ensures id in t.graph.nodes && (t.graph.nodes[id].isVirtual ==> PathCost(w, t, id) < bound)
    {
      NextCostsTheSame(w, s, op, id);
      assert s.graph.nodes[id].isVirtual ==> PathCost(w, s, id) < bound;
    }
    if MakesVirtual(w, s, op) {
      NewNodeCost(w, s, op);
    } else {
      forall id | id in t.graph.nodes && t.graph.nodes[id].isVirtual ensures PathCost(w, t, id) < bound {
        NoNewVirtual(w, s, op, id);
      }
    }
  }

  /** Every virtual snapshot of the run is affordable, with the slack `x` moved
      along as the run moves it. */
  ghost predicate AffordableRun<S>(w: World<S>, s: State<S>, ops: seq<Op<S>>, bound: real, x: real)
    requires Shaped(s) && FreshRun(w, s, ops)
    decreases |ops|
  {
    ops == [] ||
    (&& Affordable(w, s, ops[0], bound, x)
     && (NextShaped(w, s, ops[0]); AffordableRun(w, Next(w, s, ops[0]), ops[1..], bound, Moved(w, s, ops[0], x))))
  }

  /** Exactly when the counted replay costs stay below a bound, under any policy
      and in any fresh run, whatever its failed starts do: when at each virtual
      snapshot the counter is below the bound plus the slack. */
  lemma {:induction false} ReplayStaysBelowIff<S>(w: World<S>, s: State<S>, ops: seq<Op<S>>, bound: real)
    requires Shaped(s) && FreshRun(w, s, ops) && NodesBelow(w, s, bound)
    ensures NodesBelow(w, Run(w, s, ops), bound) <==> AffordableRun(w, s, ops, bound, Slack(w, s))
    decreases |ops|
  {
    hide Shaped, PathCost, Slack, Next, FreshOp, Affordable, NodesBelow, Moved;
    if ops != [] {
      NextShaped(w, s, ops[0]);
      NextBelowIff(w, s, ops[0], bound);
      SlackLaw(w, s, ops[0]);
      ShapedIsRanked(s);
      var t := Next(w, s, ops[0]);
      if Affordable(w, s, ops[0], bound, Slack(w, s)) {
        ReplayStaysBelowIff(w, t, ops[1..], bound);
      } else {
        AboveStaysAbove(w, t, ops[1..], bound);
      }
    }
  }

  lemma {:induction false} AboveStaysAbove<S>(w: World<S>, s: State<S>, ops: seq<Op<S>>, bound: real)
    requires Shaped(s) && FreshRun(w, s, ops) && !NodesBelow(w, s, bound)
    ensures !NodesBelow(w, Run(w, s, ops), bound)
  {
    hide Shaped, PathCost, Run, FreshRun;
    var id :| id in s.graph.nodes && s.graph.nodes[id].isVirtual && PathCost(w, s, id) >= bound;
    RunCostsTheSame(w, s, ops, id);
  }

  lemma {:induction false} CounterStaysPositive<S>(w: World<S>, s: State<S>, op: Op<S>)
    requires Shaped(s) && FreshOp(w, s, op) && 0.0 <= s.cum
    ensures Shaped(Next(w, s, op)) && 0.0 <= Next(w, s, op).cum
  {
    hide Tree, RegistryMatches, Restore, Restores, Fresh, Attach, CostOf;
    NextShaped(w, s, op);
    if op.DoRestore? { RestoreEffect(w, s, op.id, op.launch); }
  }

  /** Under the threshold policy, after any fresh run, whatever its failed starts
      do and after any number of restores, every virtual node replays for less
      than the threshold, if no command charged less than its replay will. */
  lemma {:induction false} ReplayStaysBelowThreshold<S>(w: World<S>, s: State<S>, ops: seq<Op<S>>)
    requires Shaped(s) && FreshRun(w, s, ops) && w.decider.ThresholdDecider?
    requires Bounded(w, s, w.decider.threshold) && ChargesEnough(w, s, ops, false)
    ensures Bounded(w, Run(w, s, ops), w.decider.threshold)
    decreases |ops|
  {
    hide Shaped, PathCost, Slack, Next, FreshOp, NodesBelow, Gap;
    if ops != [] {
      NextShaped(w, s, ops[0]);
      NextBelowIff(w, s, ops[0], w.decider.threshold);
      SlackLaw(w, s, ops[0]);
      CounterStaysPositive(w, s, ops[0]);
      ShapedIsRanked(s);
      ReplayStaysBelowThreshold(w, Next(w, s, ops[0]), ops[1..]);
    }
  }

  /** In legal runs both hold: every command charges what its replay will. */
  lemma {:induction false} LegalRunsStayBounded<S>(w: World<S>, s: State<S>, ops: seq<Op<S>>)
    requires Sound(w, s) && LegalRun(w, s, ops)
    ensures w.decider.ThresholdDecider? && Bounded(w, s, w.decider.threshold) ==>
      Bounded(w, Run(w, s, ops), w.decider.threshold)
    ensures Slack(w, s) == 0.0 && (forall i :: 0 <= i < |ops| ==> !ops[i].DoRestore?) ==>
      var t := Run(w, s, ops); t.cum == PathCost(w, t, t.last.value) + PendingCost(w, t)
  {
    hide NoDup, Keyed, RegistryMatches, StateOf, Expected, Slack, PathCost, PendingCost, NodesBelow, Run;
    LegalRunsChargeExactly(w, s, ops);
    if w.decider.ThresholdDecider? && Bounded(w, s, w.decider.threshold) { ReplayStaysBelowThreshold(w, s, ops); }
    if Slack(w, s) == 0.0 && forall i :: 0 <= i < |ops| ==> !ops[i].DoRestore? {
      CounterExactWithoutRestores(w, s, ops);
    }
  }

  // ---------- commands that raise ----------

  /** The time a replay really takes, raising commands included. */
  function TimeSpent<S>(w: World<S>, s: S, cmds: seq<Command>): (t: real)
    ensures CostOf(w, s, cmds) <= t
  {
    if cmds == [] then 0.0
    else
      var n := |cmds| - 1;
      TimeSpent(w, s, cmds[..n]) + w.run(RunAll(w, s, cmds[..n]), cmds[n]).elapsed
  }

  /** The part of it that raising commands take. */
  function RaisedTime<S>(w: World<S>, s: S, cmds: seq<Command>): (t: real)
    ensures 0.0 <= t
  {
    if cmds == [] then 0.0
    else
      var n := |cmds| - 1;
      var o := w.run(RunAll(w, s, cmds[..n]), cmds[n]);
      RaisedTime(w, s, cmds[..n]) + if o.raised then o.elapsed else 0.0
  }

  /** Conservation of replay time: what is counted and what raising commands
      take add up to the real time. */
  lemma {:induction false} TimeIsCountedOrRaised<S>(w: World<S>, s: S, cmds: seq<Command>)
    ensures TimeSpent(w, s, cmds) == CostOf(w, s, cmds) + RaisedTime(w, s, cmds)
  {
    if cmds != [] { TimeIsCountedOrRaised(w, s, cmds[..|cmds| - 1]); }
  }

  ghost predicate RaisesAt<S>(w: World<S>, s: S, cmds: seq<Command>, i: nat)
    requires i < |cmds|
  {
    var o := w.run(RunAll(w, s, cmds[..i]), cmds[i]);
    o.raised && o.elapsed > 0.0
  }

  /** The counted cost is the real replay time exactly when no replayed command
      raises after taking time: a raising command is replayed but never counted. */
  lemma {:induction false} CountedIsRealIff<S>(w: World<S>, s: S, cmds: seq<Command>)
    ensures CostOf(w, s, cmds) == TimeSpent(w, s, cmds) <==> forall i :: 0 <= i < |cmds| ==> !RaisesAt(w, s, cmds, i)
  {
    if cmds != [] {
      var n := |cmds| - 1;
      CountedIsRealIff(w, s, cmds[..n]);
      forall i | 0 <= i < n ensures RaisesAt(w, s, cmds, i) <==> RaisesAt(w, s, cmds[..n], i) {
        assert cmds[..n][..i] == cmds[..i];
      }
      assert CostOf(w, s, cmds) == TimeSpent(w, s, cmds)
        <==> CostOf(w, s, cmds[..n]) == TimeSpent(w, s, cmds[..n]) && !RaisesAt(w, s, cmds, n);
    }
  }

  /** Real replay under the threshold policy, after any fresh run: a virtual node
      replays in less than the threshold exactly when its raising commands take
      less than what its counted cost leaves of it, and in less than the
      threshold plus their time if no command charged less than its replay. */
  lemma {:induction false} RealReplayBelowThreshold<S>(w: World<S>, s: State<S>, ops: seq<Op<S>>, id: Id)
    requires Shaped(s) && FreshRun(w, s, ops) && w.decider.ThresholdDecider?
    requires Bounded(w, s, w.decider.threshold)
    requires id in Run(w, s, ops).graph.nodes && Run(w, s, ops).graph.nodes[id].isVirtual
    ensures
      var t := Run(w, s, ops);
      var spent := TimeSpent(w, Base(t, id), Replay(t.graph, id));
      var raised := RaisedTime(w, Base(t, id), Replay(t.graph, id));
      && (spent < w.decider.threshold <==> raised < w.decider.threshold - PathCost(w, t, id))
      && (AffordableRun(w, s, ops, w.decider.threshold, Slack(w, s)) ==> spent < w.decider.threshold + raised)
      && (ChargesEnough(w, s, ops, false) ==> spent < w.decider.threshold + raised)
  {
    hide NoDup, Keyed, RegistryMatches, StateOf, Run, TimeSpent, RaisedTime, CostOf, Slack, AffordableRun;
    hide ChargesEnough;
    var t := Run(w, s, ops);
    TimeIsCountedOrRaised(w, Base(t, id), Replay(t.graph, id));
    ReplayStaysBelowIff(w, s, ops, w.decider.threshold);
    if ChargesEnough(w, s, ops, false) { ReplayStaysBelowThreshold(w, s, ops); }
    assert NodesBelow(w, t, w.decider.threshold) ==> PathCost(w, t, id) < w.decider.threshold;
  }
}
