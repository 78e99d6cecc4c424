/** Which snapshots are physical under each policy, and what that leaves behind. */
module Kinds {
  import opened SnapshotTree
  import opened Deciders
  import opened Benchmark
  import opened Decimal
  import opened ManagerModel
  import opened Soundness
  import opened Accounts

  /** What each policy says about a snapshot that turned out physical or not. */
  ghost predicate KindFits(d: Decider, counter: real, coin: bool, physical: bool) {
    && (d == AlwaysTrueDecider ==> physical)
    && (d == AlwaysFalseDecider ==> !physical)
    && (d == RandomDecider ==> (physical <==> coin))
    && (d.ThresholdDecider? ==> (physical <==> counter >= d.threshold))
  }

  /** The one node that an operation can add: its kind is the policy's, a
      physical one has the backend's id, an image and no commands, and a virtual
      one an id of its own, no image and the commands since its parent. */
  lemma {:induction false} NewNodeKind<S>(w: World<S>, s: State<S>, op: Op<S>, id: Id)
    requires Shaped(s) && FreshOp(w, s, op)
    requires id in Next(w, s, op).graph.nodes && id !in s.graph.nodes
    ensures op.DoSnapshot? || op.DoStep?
    ensures
      var t := Next(w, s, op); var n := t.graph.nodes[id];
      && KindFits(w.decider, s.cum, op.luck.coin, !n.isVirtual)
      && n.parent == s.last
      && (!n.isVirtual ==> op.luck.commit.Some? && op.luck.commit.value.0 == id && n.replay == [] && id in t.snapshots)
      && (n.isVirtual ==>
            && |id.text| == 8 && id.text[0] == 'v' && n.replay == s.log
            && t.snapshots == s.snapshots && t.store == s.store)
  {
    hide Shaped, Tree, Ranked, Fresh, Attach, Restore, Restores, Snapshot, CreateEnv, VirtualId;
    ShapedIsRanked(s);
    if !op.DoCmd? && !op.DoRestore? { VirtualIdText(op.luck.ms); }
    match op
    case DoCmd(cmd) =>
    case DoRestore(other, launch) => RestoreEffect(w, s, other, launch);
    case DoSnapshot(luck) => SnapshotNode(w, s, luck);
    case DoStep(luck, launch) => SnapshotNode(w, s, luck); StepKeepsGraph(w, s, luck, launch);
  }

  lemma {:induction false} StepKeepsGraph<S>(w: World<S>, s: State<S>, luck: Luck, launch: Launch<S>)
    requires Ranked(s.graph)
    ensures var t, m := Next(w, s, DoStep(luck, launch)), Snapshot(w, s, luck);
      t.graph == m.graph && t.snapshots == m.snapshots && t.store == m.store
  {
    hide Snapshot, Ranked;
  }

  /** The node that a snapshot adds. */
  lemma {:induction false} SnapshotNode<S>(w: World<S>, s: State<S>, luck: Luck)
    requires Shaped(s) && Fresh(w, s, luck)
    ensures
      var t, id := Snapshot(w, s, luck), NewId(w, s, luck);
      && t.graph.nodes.Keys == s.graph.nodes.Keys + (if id.Some? then {id.value} else {})
      && (id.Some? ==>
            var n := t.graph.nodes[id.value];
            && KindFits(w.decider, s.cum, luck.coin, !n.isVirtual) && n.parent == s.last
            && (!n.isVirtual ==> luck.commit.Some? && luck.commit.value.0 == id.value)
            && (!n.isVirtual ==> n.replay == [] && id.value in t.snapshots)
            && (n.isVirtual ==> id.value.text == VirtualId(luck.ms) && n.replay == s.log)
            && (n.isVirtual ==> t.snapshots == s.snapshots && t.store == s.store))
  {
    hide Tree, RegistryMatches, Attach, VirtualId, Fresh;
    if NewId(w, s, luck).Some? {
      SnapshotGraph(w, s, luck);
      LastIsNotEmpty(s);
    }
  }

  lemma LastIsNotEmpty<S>(s: State<S>)
    requires Shaped(s)
    ensures Truthy(s.last) == s.last
  {
  }

  /** A snapshot returns an id exactly when one is made: always for a virtual
      snapshot, and for a physical one unless the backend fails. */
  lemma {:induction false} SnapshotReturns<S>(w: World<S>, s: State<S>, luck: Luck)
    requires Shaped(s) && Fresh(w, s, luck)
    ensures
      var id := NewId(w, s, luck); var t := Snapshot(w, s, luck);
      && (id.Some? ==> id.value !in s.graph.nodes && t.graph.order == s.graph.order + [id.value] && t.last == id)
      && (id.None? ==> t == s && luck.commit.None? && KindFits(w.decider, s.cum, luck.coin, true))
      && (luck.commit.None? && KindFits(w.decider, s.cum, luck.coin, true) ==> id.None?)
  {
    hide Tree, RegistryMatches, Attach;
    if NewId(w, s, luck).Some? { SnapshotGraph(w, s, luck); }
  }

  // ---------- whole runs ----------

  /** In any fresh run: the node that operation `i` added has, at the end too,
      the kind its policy chose from the counter before it and its coin. */
  lemma {:induction false} KindsOfRun<S>(w: World<S>, s: State<S>, ops: seq<Op<S>>, i: nat, id: Id)
    requires Shaped(s) && FreshRun(w, s, ops) && i < |ops|
    requires FreshRun(w, s, ops[..i]) && FreshRun(w, s, ops[..i + 1])
    requires id !in Run(w, s, ops[..i]).graph.nodes && id in Run(w, s, ops[..i + 1]).graph.nodes
    ensures ops[i].DoSnapshot? || ops[i].DoStep?
    ensures
      var t := Run(w, s, ops);
      && id in t.graph.nodes
      && KindFits(w.decider, Run(w, s, ops[..i]).cum, ops[i].luck.coin, !t.graph.nodes[id].isVirtual)
      && (id in t.snapshots <==> !t.graph.nodes[id].isVirtual)
      && (!t.graph.nodes[id].isVirtual ==> t.graph.nodes[id].replay == [])
  {
    hide Next, FreshOp, FreshRun, Run, KindFits, Tree, Attach;
    RunStep(w, s, ops, i);
    ShapedIsRanked(Run(w, s, ops[..i]));
    NewNodeKind(w, Run(w, s, ops[..i]), ops[i], id);
    RunSplit(w, s, ops, i + 1);
    RunKeeps(w, Run(w, s, ops[..i + 1]), ops[i + 1..]);
    PhysicalsReplayNothing(Run(w, s, ops));
  }

  lemma PhysicalsReplayNothing<S>(s: State<S>)
    requires Shaped(s)
    ensures forall id :: id in s.graph.nodes && !s.graph.nodes[id].isVirtual ==> s.graph.nodes[id].replay == []
  {
  }

  /** Under the always-virtual policy no run commits an image: registry, store and
      the number of "snapshot" entries stay, and every new node is virtual. */
  lemma {:induction false} AlwaysFalseNeverCommits<S>(w: World<S>, s: State<S>, ops: seq<Op<S>>)
    requires Shaped(s) && FreshRun(w, s, ops) && w.decider == AlwaysFalseDecider
    ensures
      var t := Run(w, s, ops);
      && t.snapshots == s.snapshots && t.store == s.store
      && Count(t.stats.entries, SNAPSHOT) == Count(s.stats.entries, SNAPSHOT)
      && Count(t.stats.entries, CONTAINER) == Count(s.stats.entries, CONTAINER)
      && forall id :: id in t.graph.nodes && id !in s.graph.nodes ==> t.graph.nodes[id].isVirtual
    decreases |ops|
  {
    hide Shaped, Next, FreshOp, Count;
    if ops != [] {
      RunUncons(w, s, ops);
      var m := Next(w, s, ops[0]);
      NextNeverCommits(w, s, ops[0]);
      AlwaysFalseNeverCommits(w, m, ops[1..]);
      RunKeeps(w, m, ops[1..]);
    }
  }

  lemma {:induction false} NextNeverCommits<S>(w: World<S>, s: State<S>, op: Op<S>)
    requires Shaped(s) && FreshOp(w, s, op) && w.decider == AlwaysFalseDecider
    ensures
      var t := Next(w, s, op);
      && Shaped(t) && t.snapshots == s.snapshots && t.store == s.store
      && Count(t.stats.entries, SNAPSHOT) == Count(s.stats.entries, SNAPSHOT)
      && Count(t.stats.entries, CONTAINER) == Count(s.stats.entries, CONTAINER)
      && forall id :: id in t.graph.nodes && id !in s.graph.nodes ==> t.graph.nodes[id].isVirtual
  {
    hide Shaped, Tree, Ranked, Attach, Restore, Restores, Count, Fresh;
    ShapedIsRanked(s);
    NextShaped(w, s, op);
    NextCounted(w, s, op, SNAPSHOT);
    NextCounted(w, s, op, CONTAINER);
    if op.DoRestore? { RestoreEffect(w, s, op.id, op.launch); }
    if op.DoStep? { StepLaunchesNothing(w, s, op.luck, op.launch); }
    forall id | id in Next(w, s, op).graph.nodes && id !in s.graph.nodes
      ensures Next(w, s, op).graph.nodes[id].isVirtual
    {
      NewNodeKind(w, s, op, id);
    }
  }

  lemma {:induction false} StepLaunchesNothing<S>(w: World<S>, s: State<S>, luck: Luck, launch: Launch<S>)
    requires Shaped(s) && Fresh(w, s, luck) && w.decider == AlwaysFalseDecider
    ensures Next(w, s, DoStep(luck, launch)).snapshots == s.snapshots
    ensures Next(w, s, DoStep(luck, launch)).store == s.store
  {
    hide Tree, RegistryMatches, Attach;
  }

  /** Under the always-physical policy every new node is physical, with an image
      and without commands, for any counters and coins. */
  lemma {:induction false} AlwaysTrueAlwaysCommits<S>(w: World<S>, s: State<S>, ops: seq<Op<S>>, id: Id)
    requires Shaped(s) && FreshRun(w, s, ops) && w.decider == AlwaysTrueDecider
    requires id in Run(w, s, ops).graph.nodes && id !in s.graph.nodes
    ensures
      var t := Run(w, s, ops);
      !t.graph.nodes[id].isVirtual && t.graph.nodes[id].replay == [] && id in t.snapshots && t.snapshots[id] in t.store
    decreases |ops|
  {
    hide Next, FreshOp, Tree;
    if ops != [] {
      NextShaped(w, s, ops[0]);
      ShapedIsRanked(s);
      var m := Next(w, s, ops[0]);
      if id in m.graph.nodes {
        NewNodeKind(w, s, ops[0], id);
        RunKeeps(w, m, ops[1..]);
        PhysicalsReplayNothing(Run(w, s, ops));
      } else {
        AlwaysTrueAlwaysCommits(w, m, ops[1..], id);
      }
    }
  }
}
