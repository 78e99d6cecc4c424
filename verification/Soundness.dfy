/** The inductive invariant of the snapshot tree, kept by every operation of
    every run, and what it says about `restore`. */
module Soundness {
  import opened Prelude
  import opened SnapshotTree
  import opened Benchmark
  import opened ManagerModel

  // ---------- running commands in two halves ----------

  lemma {:induction false} RunAllSplit<S>(w: World<S>, s: S, a: seq<Command>, b: seq<Command>)
    ensures RunAll(w, s, a + b) == RunAll(w, RunAll(w, s, a), b)
    ensures CostOf(w, s, a + b) == CostOf(w, s, a) + CostOf(w, RunAll(w, s, a), b)
  {
    if b == [] {
      assert a + b == a;
    } else {
      var n := |b| - 1;
      RunAllSplit(w, s, a, b[..n]);
      assert (a + b)[..|a + b| - 1] == a + b[..n];
    }
  }

  lemma RunAllOne<S>(w: World<S>, s: S, cmds: seq<Command>, cmd: Command)
    ensures RunAll(w, s, cmds + [cmd]) == w.run(RunAll(w, s, cmds), cmd).after
    ensures CostOf(w, s, cmds + [cmd]) == CostOf(w, s, cmds) + Charge(w.run(RunAll(w, s, cmds), cmd))
  {
    assert (cmds + [cmd])[..|cmds|] == cmds;
  }

  /** What a whole replay does to the manager, in one step. */
  lemma {:induction false} ExecAllEffect<S>(w: World<S>, s: State<S>, cmds: seq<Command>)
    ensures var t := ExecAll(w, s, cmds);
      && t == s.(live := RunAll(w, s.live, cmds), cum := s.cum + CostOf(w, s.live, cmds),
                 log := s.log + cmds, stats := t.stats)
  {
    if cmds == [] {
      assert s.log + cmds == s.log;
    } else {
      var n := |cmds| - 1;
      ExecAllEffect(w, s, cmds[..n]);
      assert s.log + cmds == s.log + cmds[..n] + [cmds[n]];
    }
  }

  // ---------- the invariant ----------

  /** The registry's keys are exactly the physical ids, and every image exists. */
  ghost predicate RegistryMatches<S>(nodes: map<Id, Node>, snapshots: map<Id, Image>, store: map<Image, S>) {
    && (forall id :: id in snapshots <==> id in nodes && !nodes[id].isVirtual)
    && (forall id :: id in snapshots ==> snapshots[id].name != "" && snapshots[id] in store)
  }

  ghost predicate Registered<S>(s: State<S>) {
    RegistryMatches(s.graph.nodes, s.snapshots, s.store)
  }

  /** Tree, registry, and the two current positions are in order. */
  ghost predicate Shaped<S>(s: State<S>) {
    && Tree(s.graph) && Registered(s)
    && s.last.Some? && s.last.value in s.graph.nodes
    && s.current.Some? && s.current.value in s.graph.nodes
  }

  lemma ShapedIsRanked<S>(s: State<S>)
    requires Shaped(s)
    ensures Ranked(s.graph)
  {
  }

  /** The image of the nearest physical ancestor. */
  ghost function Base<S>(s: State<S>, id: Id): S
    requires Shaped(s) && id in s.graph.nodes
  {
    PhysicalAncestorExists(s.graph, id);
    s.store[s.snapshots[Anchor(s.graph, id).value]]
  }

  /** The state a node stands for: its nearest physical image plus its replay. */
  ghost function StateOf<S>(w: World<S>, s: State<S>, id: Id): S
    requires Shaped(s) && id in s.graph.nodes
  {
    RunAll(w, Base(s, id), Replay(s.graph, id))
  }

  /** Where replaying `last` and then the pending log would lead. */
  ghost function Expected<S>(w: World<S>, s: State<S>): S
    requires Shaped(s)
  {
    RunAll(w, StateOf(w, s, s.last.value), s.log)
  }

  /** The invariant: the live environment is the expected one. */
  ghost predicate Sound<S>(w: World<S>, s: State<S>) {
    Shaped(s) && s.live == Expected(w, s)
  }

  // ---------- which operations are covered ----------

  /** The id a snapshot is about to use is new, and so is its image name. */
  ghost predicate Fresh<S>(w: World<S>, s: State<S>, luck: Luck) {
    var id := NewId(w, s, luck);
    id.Some? ==>
      && id.value !in s.graph.nodes && id.value != Id("")
      && (TakesPhysical(w, s, luck) ==> ImageName(w, id.value) !in s.store)
  }

  ghost predicate FreshOp<S>(w: World<S>, s: State<S>, op: Op<S>) {
    match op
    case DoSnapshot(luck) => Fresh(w, s, luck)
    case DoStep(luck, _) => Fresh(w, s, luck)
    case DoRestore(_, _) => true
    case DoCmd(_) => true
  }

  /** A failed start leaves the live environment as it was. */
  ghost predicate Contained<S>(s: State<S>, launch: Launch<S>) {
    !launch.ok ==> launch.left == s.live
  }

  ghost predicate ContainedOp<S>(s: State<S>, op: Op<S>) {
    match op
    case DoSnapshot(_) => true
    case DoStep(_, launch) => Contained(s, launch)
    case DoRestore(_, launch) => Contained(s, launch)
    case DoCmd(_) => true
  }

  ghost predicate Legal<S>(w: World<S>, s: State<S>, op: Op<S>) {
    FreshOp(w, s, op) && ContainedOp(s, op)
  }

  /** The nodes of `s` stand for the same states in `t`. */
  ghost predicate Keeps<S>(w: World<S>, s: State<S>, t: State<S>)
    requires Shaped(s) && Shaped(t)
  {
    && Preserves(s.graph, t.graph)
    && forall id {:trigger StateOf(w, s, id)} {:trigger StateOf(w, t, id)} ::
         id in s.graph.nodes ==> StateOf(w, t, id) == StateOf(w, s, id)
  }

  // ---------- one operation ----------

  lemma {:induction false} NodeFits<S>(w: World<S>, s: State<S>, luck: Luck)
    requires Shaped(s) && Fresh(w, s, luck) && NewId(w, s, luck).Some?
    ensures Keyed(s.graph) && Fits(s.graph, NewNode(w, s, luck)) && NewNode(w, s, luck).id == NewId(w, s, luck).value
  {
    hide RegistryMatches, Attach, ListsItsChildren, ParentEarlier, NoDup;
  }

  lemma {:induction false} SnapshotGraph<S>(w: World<S>, s: State<S>, luck: Luck)
    requires Shaped(s) && Fresh(w, s, luck) && NewId(w, s, luck).Some?
    ensures var t := Snapshot(w, s, luck); var id := NewId(w, s, luck).value;
      && Tree(t.graph) && Preserves(s.graph, t.graph)
      && t.graph.nodes.Keys == s.graph.nodes.Keys + {id}
      && t.graph.order == s.graph.order + [id]
      && t.graph.nodes[id] == NewNode(w, s, luck)
  {
    hide Attach, Tree, Ranked, Keyed, Preserves, Fits, NewNode, NewId, TakesPhysical, RegistryMatches, Fresh, ImageName;
    NodeFits(w, s, luck);
    AttachKeepsTree(s.graph, NewNode(w, s, luck));
    AttachKeyed(s.graph, NewNode(w, s, luck));
  }

  lemma RegistryGrows<S>(nodes: map<Id, Node>, grown: map<Id, Node>, node: Node,
                         snapshots: map<Id, Image>, store: map<Image, S>, image: Image, live: S)
    requires RegistryMatches(nodes, snapshots, store)
    requires node.id !in nodes && grown.Keys == nodes.Keys + {node.id} && grown[node.id] == node
    requires forall id :: id in nodes ==> grown[id].isVirtual == nodes[id].isVirtual
    ensures node.isVirtual ==> RegistryMatches(grown, snapshots, store)
    ensures !node.isVirtual && image.name != "" ==>
      RegistryMatches(grown, snapshots[node.id := image], store[image := live])
  {
    assert forall id :: id in grown <==> id in nodes || id == node.id;
  }

  lemma {:induction false} SnapshotShaped<S>(w: World<S>, s: State<S>, luck: Luck)
    requires Shaped(s) && Fresh(w, s, luck)
    ensures Shaped(Snapshot(w, s, luck)) && Preserves(s.graph, Snapshot(w, s, luck).graph)
    ensures forall id :: id in s.snapshots ==>
      var t := Snapshot(w, s, luck);
      id in t.snapshots && t.snapshots[id] in t.store && t.store[t.snapshots[id]] == s.store[s.snapshots[id]]
  {
    if NewId(w, s, luck).Some? {
      SnapshotGraph(w, s, luck);
      var node := NewNode(w, s, luck);
      var image := ImageName(w, node.id);
      assert image.name[|w.prefix|] == ':';
      RegistryGrows(s.graph.nodes, Snapshot(w, s, luck).graph.nodes, node, s.snapshots, s.store, image, s.live);
    }
  }

  lemma {:induction false} SnapshotKeeps<S>(w: World<S>, s: State<S>, luck: Luck, id: Id)
    requires Shaped(s) && Fresh(w, s, luck) && id in s.graph.nodes && Shaped(Snapshot(w, s, luck))
    ensures var t := Snapshot(w, s, luck);
      id in t.graph.nodes && Base(t, id) == Base(s, id) && Replay(t.graph, id) == Replay(s.graph, id)
      && Anchor(t.graph, id) == Anchor(s.graph, id)
  {
    SnapshotShaped(w, s, luck);
    ReplayKept(s.graph, Snapshot(w, s, luck).graph, id);
    PhysicalAncestorExists(s.graph, id);
  }

  /** What the node just created stands for: the live state if it is physical,
      the expected state if it is virtual. */
  lemma {:induction false} SnapshotCaptures<S>(w: World<S>, s: State<S>, luck: Luck)
    requires Shaped(s) && Fresh(w, s, luck) && NewId(w, s, luck).Some?
    ensures var t := Snapshot(w, s, luck); var id := NewId(w, s, luck).value;
      && Shaped(t) && id in t.graph.nodes && t.last == Some(id) && t.current == s.current && !t.cleanedUp
      && StateOf(w, t, id) == (if TakesPhysical(w, s, luck) then s.live else Expected(w, s))
      && Base(t, id) == (if TakesPhysical(w, s, luck) then s.live else Base(s, s.last.value))
      && Replay(t.graph, id) == (if TakesPhysical(w, s, luck) then [] else Replay(s.graph, s.last.value) + s.log)
  {
    hide NoDup, Keyed, RegistryMatches, Attach;
    SnapshotShaped(w, s, luck);
    SnapshotGraph(w, s, luck);
    if !TakesPhysical(w, s, luck) {
      VirtualWalk(s.graph, NewNode(w, s, luck));
      var p := s.last.value;
      PhysicalAncestorExists(s.graph, p);
      RunAllSplit(w, Base(s, p), Replay(s.graph, p), s.log);
    }
  }

  lemma {:induction false} SnapshotKeepsAll<S>(w: World<S>, s: State<S>, luck: Luck)
    requires Shaped(s) && Fresh(w, s, luck)
    ensures var t := Snapshot(w, s, luck); Shaped(t) && Keeps(w, s, t) && t.live == s.live
  {
    var t := Snapshot(w, s, luck);
    SnapshotShaped(w, s, luck);
    forall id | id in s.graph.nodes ensures StateOf(w, t, id) == StateOf(w, s, id) {
      SnapshotKeeps(w, s, luck, id);
    }
  }

  /** The law of snapshots in any well-shaped state: the new node stands for the
      live environment exactly when it is physical or the invariant held, and
      then the invariant holds afterwards. */
  lemma {:induction false} SnapshotCapturesIff<S>(w: World<S>, s: State<S>, luck: Luck)
    requires Shaped(s) && Fresh(w, s, luck) && NewId(w, s, luck).Some?
    ensures var t := Snapshot(w, s, luck); var id := NewId(w, s, luck).value;
      && Shaped(t) && id in t.graph.nodes
      && (StateOf(w, t, id) == s.live <==> TakesPhysical(w, s, luck) || Sound(w, s))
      && (Sound(w, t) <==> TakesPhysical(w, s, luck) || Sound(w, s))
  {
    hide StateOf, NoDup, Keyed, RegistryMatches, Attach;
    SnapshotCaptures(w, s, luck);
  }

  /** States that differ only in the live environment, the counters and the
      positions agree on what every node stands for. */
  lemma SameStates<S>(w: World<S>, s: State<S>, t: State<S>)
    requires Shaped(s) && Shaped(t) && t.graph == s.graph && t.snapshots == s.snapshots && t.store == s.store
    ensures Keeps(w, s, t)
  {
    forall id | id in s.graph.nodes ensures StateOf(w, t, id) == StateOf(w, s, id) {
      assert Base(t, id) == Base(s, id);
    }
  }

  lemma {:induction false} ExecKeeps<S>(w: World<S>, s: State<S>, cmd: Command)
    requires Shaped(s)
    ensures var t := Exec(w, s, cmd);
      && Shaped(t) && Keeps(w, s, t)
      && Expected(w, t) == w.run(Expected(w, s), cmd).after && t.live == w.run(s.live, cmd).after
  {
    hide NoDup, Keyed, RegistryMatches;
    SameStates(w, s, Exec(w, s, cmd));
    RunAllOne(w, StateOf(w, s, s.last.value), s.log, cmd);
  }

  lemma ExecSound<S>(w: World<S>, s: State<S>, cmd: Command)
    requires Sound(w, s)
    ensures Sound(w, Exec(w, s, cmd)) && Keeps(w, s, Exec(w, s, cmd))
  {
    hide StateOf, RunAll, Keeps, Exec, Shaped;
    ExecKeeps(w, s, cmd);
  }

  /** A successful restore of any known node, physical or virtual, at any depth,
      brings the live environment to the state the node stands for. */
  lemma RestoreEffect<S>(w: World<S>, s: State<S>, id: Id, launch: Launch<S>)
    requires Shaped(s)
    ensures var t := Restore(w, s, id, launch);
      && t.graph == s.graph && t.snapshots == s.snapshots && t.store == s.store && t.cleanedUp == s.cleanedUp
      && (Restores(s, id, launch) ==>
            t.live == StateOf(w, s, id) && t.last == t.current == Some(id) && t.log == []
            && t.cum == s.cum + CostOf(w, Base(s, id), Replay(s.graph, id)))
      && (!Restores(s, id, launch) ==>
            t == s.(live := if id in s.graph.nodes then launch.left else s.live))
      && (Restores(s, id, launch) <==> id in s.graph.nodes && launch.ok)
  {
    hide NoDup, Keyed, Commands, Chain, Add, RunAll, ExecAll, CostOf;
    if id in s.graph.nodes {
      PhysicalAncestorExists(s.graph, id);
      var top := Anchor(s.graph, id).value;
      var u := s.(live := LiveAfter(s, top, launch), stats := Add(s.stats, RESTORE, Some(top), launch.elapsed));
      ExecAllEffect(w, u, Replay(s.graph, id));
    }
  }

  /** Recovery, in any well-shaped state: a restore of a known node leads to a
      sound state exactly when the start succeeds or happens to leave the
      environment where it was expected. */
  lemma {:induction false} RestoreSoundIff<S>(w: World<S>, s: State<S>, id: Id, launch: Launch<S>)
    requires Shaped(s)
    ensures var t := Restore(w, s, id, launch);
      && Shaped(t) && Keeps(w, s, t)
      && (Sound(w, t) <==>
            if id in s.graph.nodes then launch.ok || launch.left == Expected(w, s) else Sound(w, s))
  {
    hide StateOf, NoDup, Keyed, RegistryMatches, Restores, Restore;
    RestoreEffect(w, s, id, launch);
    SameStates(w, s, Restore(w, s, id, launch));
  }

  /** The environment that a start from a registered id leaves: the image, or
      whatever a failure left behind. */
  ghost function Started<S>(s: State<S>, id: Id, launch: Launch<S>): S
    requires id in s.snapshots && s.snapshots[id] in s.store
  {
    if launch.ok then s.store[s.snapshots[id]] else launch.left
  }

  /** Starting an image, said outright: an id that is unknown or has no image name
      is refused and nothing is touched; otherwise the image is live if the start
      succeeds and the image exists, and if not, what the failure left. */
  lemma StartMeans<S>(s: State<S>, id: Id, launch: Launch<S>)
    ensures id !in s.snapshots || s.snapshots[id].name == "" ==>
      !Launches(s, id, launch) && LiveAfter(s, id, launch) == s.live
    ensures id in s.snapshots && s.snapshots[id].name != "" ==>
      && (Launches(s, id, launch) <==> launch.ok && s.snapshots[id] in s.store)
      && LiveAfter(s, id, launch) == if Launches(s, id, launch) then s.store[s.snapshots[id]] else launch.left
  {
  }

  /** What starting an environment from any id does in any well-shaped state. A
      virtual or unknown id changes nothing; a known one replaces the live
      environment and, on success, the current position, but never the position
      that snapshots attach to. */
  lemma {:induction false} CreateEnvEffect<S>(w: World<S>, s: State<S>, id: Id, launch: Launch<S>)
    requires Shaped(s)
    ensures var t := CreateEnv(s, id, launch);
      && Shaped(t) && Keeps(w, s, t) && Expected(w, t) == Expected(w, s)
      && (id !in s.snapshots ==> t == s)
      && (id in s.snapshots ==> s.snapshots[id] in s.store && t.live == Started(s, id, launch))
      && (id in s.snapshots && launch.ok ==> t.live == StateOf(w, s, id) && t.current == Some(id) && !t.cleanedUp)
      && (!launch.ok ==> t.current == s.current && t.cleanedUp == s.cleanedUp && t.stats == s.stats)
      && t.last == s.last && t.log == s.log && t.cum == s.cum
  {
    hide NoDup, Keyed;
    var t := CreateEnv(s, id, launch);
    assert Shaped(t);
    SameStates(w, s, t);
    if id in s.snapshots {
      assert Anchor(s.graph, id) == Some(id);
      assert Chain(s.graph, id) == [];
    }
  }

  /** `create_env_from_snapshot` leads to a sound state exactly when the id is
      unknown to the registry and the state was sound, or the environment it
      starts is the one expected; in a sound state that is the live one. */
  lemma {:induction false} CreateEnvSoundIff<S>(w: World<S>, s: State<S>, id: Id, launch: Launch<S>)
    requires Shaped(s)
    ensures var t := CreateEnv(s, id, launch);
      && Shaped(t) && Keeps(w, s, t)
      && (id in s.snapshots ==> s.snapshots[id] in s.store)
      && (Sound(w, t) <==>
            if id in s.snapshots then Started(s, id, launch) == Expected(w, s) else Sound(w, s))
      && (Sound(w, s) ==>
            (Sound(w, t) <==> id !in s.snapshots || Started(s, id, launch) == s.live))
  {
    hide StateOf, RunAll, Expected, RegistryMatches, NoDup, Keyed, Tree, Keeps, CreateEnv;
    CreateEnvEffect(w, s, id, launch);
  }

  /** What `step` does in any well-shaped state: a physical snapshot is started
      at once, a virtual one is not in the registry and starts nothing. */
  lemma {:induction false} StepEffect<S>(w: World<S>, s: State<S>, luck: Luck, launch: Launch<S>)
    requires Shaped(s) && Fresh(w, s, luck)
    ensures var t := Next(w, s, DoStep(luck, launch)); var m := Snapshot(w, s, luck); var id := NewId(w, s, luck);
      && Shaped(t) && Keeps(w, s, t) && Shaped(m)
      && (id.None? ==> t == s)
      && (id.Some? ==>
            && id.value in t.graph.nodes && id.value in m.graph.nodes && t.last == id && t.log == []
            && StateOf(w, t, id.value) == Expected(w, t) == StateOf(w, m, id.value)
            && t.current == (if TakesPhysical(w, s, luck) && launch.ok then id else s.current)
            && t.live == if TakesPhysical(w, s, luck) && !launch.ok then launch.left else s.live)
  {
    hide StateOf, NoDup, Keyed, Attach, Keeps, Tree;
    SnapshotKeepsAll(w, s, luck);
    var m := Snapshot(w, s, luck);
    var id := NewId(w, s, luck);
    if id.Some? {
      SnapshotCaptures(w, s, luck);
      SnapshotGraph(w, s, luck);
      CreateEnvEffect(w, m, id.value, launch);
      KeepsTransitive(w, s, m, CreateEnv(m, id.value, launch));
      KeepsOne(w, m, CreateEnv(m, id.value, launch), id.value);
    }
  }

  lemma KeepsOne<S>(w: World<S>, s: State<S>, t: State<S>, id: Id)
    requires Shaped(s) && Shaped(t) && Keeps(w, s, t) && id in s.graph.nodes
    ensures id in t.graph.nodes && StateOf(w, t, id) == StateOf(w, s, id)
  {
  }

  lemma KeepsTransitive<S>(w: World<S>, a: State<S>, b: State<S>, c: State<S>)
    requires Shaped(a) && Shaped(b) && Shaped(c) && Keeps(w, a, b) && Keeps(w, b, c)
    ensures Keeps(w, a, c)
  {
  }

  /** Every operation with a fresh id keeps the shape and every older node,
      whatever a failed start does to the live environment. */
  lemma {:induction false} NextShaped<S>(w: World<S>, s: State<S>, op: Op<S>)
    requires Shaped(s) && FreshOp(w, s, op)
    ensures Shaped(Next(w, s, op)) && Keeps(w, s, Next(w, s, op))
  {
    hide Shaped, Tree, Ranked, Keeps, StateOf, Expected, Fresh, NewId, Snapshot, Restore, Exec, CreateEnv;
    match op
    case DoSnapshot(luck) => SnapshotKeepsAll(w, s, luck);
    case DoRestore(id, launch) => RestoreSoundIff(w, s, id, launch);
    case DoStep(luck, launch) => StepEffect(w, s, luck, launch);
    case DoCmd(cmd) => ExecKeeps(w, s, cmd);
  }

  /** Exactly when an operation leads to a sound state, for every operation in
      every well-shaped state, sound or not. A physical snapshot and a
      successful restore repair a state that was not. */
  lemma {:induction false} NextSoundIff<S>(w: World<S>, s: State<S>, op: Op<S>)
    requires Shaped(s) && FreshOp(w, s, op)
    ensures Sound(w, Next(w, s, op)) <==>
      match op
      case DoSnapshot(luck) => Sound(w, s) || (TakesPhysical(w, s, luck) && luck.commit.Some?)
      case DoStep(luck, launch) =>
        if TakesPhysical(w, s, luck) && luck.commit.Some? then launch.ok || launch.left == s.live else Sound(w, s)
      case DoRestore(id, launch) =>
        if id in s.graph.nodes then launch.ok || launch.left == Expected(w, s) else Sound(w, s)
      case DoCmd(cmd) => w.run(s.live, cmd).after == w.run(Expected(w, s), cmd).after
  {
    hide Shaped, Tree, Ranked, Keeps, StateOf, Expected, Fresh, Attach, Restore, Exec, CreateEnv, RunAll;
    match op
    case DoSnapshot(luck) =>
      if NewId(w, s, luck).Some? { SnapshotCapturesIff(w, s, luck); }
    case DoStep(luck, launch) =>
      StepEffect(w, s, luck, launch);
      if NewId(w, s, luck).Some? { SnapshotCaptures(w, s, luck); }
    case DoRestore(id, launch) => RestoreSoundIff(w, s, id, launch);
    case DoCmd(cmd) => ExecKeeps(w, s, cmd);
  }

  /** Every legal operation of the shell keeps the invariant and every older node. */
  lemma {:induction false} NextSound<S>(w: World<S>, s: State<S>, op: Op<S>)
    requires Sound(w, s) && Legal(w, s, op)
    ensures Sound(w, Next(w, s, op)) && Keeps(w, s, Next(w, s, op))
  {
    hide Shaped, Tree, Ranked, Keeps, StateOf, Expected, Fresh, NewId, Next, RunAll;
    NextShaped(w, s, op);
    NextSoundIff(w, s, op);
  }

  lemma NextSoundIfContained<S>(w: World<S>, s: State<S>, op: Op<S>)
    requires Shaped(s) && FreshOp(w, s, op)
    ensures Sound(w, s) && ContainedOp(s, op) ==> Sound(w, Next(w, s, op))
  {
    hide Shaped, Tree, Ranked, Sound, FreshOp, ContainedOp, Next;
    if Sound(w, s) && ContainedOp(s, op) { NextSound(w, s, op); }
  }

  /** `step` never moves the live state: the image it starts is the one just taken. */
  lemma {:induction false} StepSound<S>(w: World<S>, s: State<S>, luck: Luck, launch: Launch<S>)
    requires Sound(w, s) && Fresh(w, s, luck) && Contained(s, launch)
    ensures var t := Next(w, s, DoStep(luck, launch));
      Sound(w, t) && Keeps(w, s, t) && t.live == s.live
  {
    hide Shaped, Tree, Ranked, Keeps, StateOf, Expected, Fresh, NewId, Next, Snapshot, RunAll;
    NextSound(w, s, DoStep(luck, launch));
    StepEffect(w, s, luck, launch);
  }

  /** After cleanup no image that the registry named is left, and no restore and
      no start can succeed. */
  lemma NothingRestoresAfterCleanup<S>(s: State<S>, gone: S, id: Id, launch: Launch<S>)
    requires Shaped(s)
    ensures var t := Cleanup(s, gone);
      && t.graph == s.graph && t.snapshots == map[] && t.live == gone && t.cleanedUp
      && t.last == s.last && t.current == s.current && t.log == s.log && t.cum == s.cum && t.stats == s.stats
      && (forall i :: i in s.snapshots ==> s.snapshots[i] !in t.store)
      && (forall image :: image in s.store && image !in s.snapshots.Values ==>
            image in t.store && t.store[image] == s.store[image])
      && !Restores(t, id, launch) && !Launches(t, id, launch)
  {
  }

  lemma RootIsTree(root: Id)
    requires root != Id("")
    ensures Tree(Graph(map[root := Node(root, None, [], false, [])], [root]))
  {
    var g := Graph(map[root := Node(root, None, [], false, [])], [root]);
    assert g.order[0] == root;
    assert Keyed(g) && ParentEarlier(g, root);
    assert ChildrenIn(g, g.order[..0], root) == [];
    assert ListsItsChildren(g, root);
  }

  /** A manager attached to any running container has the shape, if the image
      its root names exists. */
  lemma {:induction false} AttachedShaped<S>(w: World<S>, tag: Id, images: map<Image, S>, live: S)
    requires ImageName(w, tag) in images
    ensures var s := Attached(w, tag, images, live);
      && Shaped(s) && Anchor(s.graph, BASE) == Some(BASE) && Replay(s.graph, BASE) == []
      && Base(s, BASE) == StateOf(w, s, BASE) == Expected(w, s) == images[ImageName(w, tag)]
  {
    var s := Attached(w, tag, images, live);
    assert s.snapshots[BASE].name[|w.prefix|] == ':';
    RootIsTree(BASE);
    assert Anchor(s.graph, BASE) == Some(BASE) && Chain(s.graph, BASE) == [];
  }

  // ---------- whole runs ----------

  /** Every snapshot of the run uses an unused id. Starts may fail and leave any
      environment behind. */
  ghost predicate FreshRun<S>(w: World<S>, s: State<S>, ops: seq<Op<S>>)
    requires Shaped(s)
    decreases |ops|
  {
    ops == [] ||
    (FreshOp(w, s, ops[0]) && (NextShaped(w, s, ops[0]); FreshRun(w, Next(w, s, ops[0]), ops[1..])))
  }

  /** Every failed start of the run leaves the live environment alone. */
  ghost predicate ContainedRun<S>(w: World<S>, s: State<S>, ops: seq<Op<S>>)
    requires Shaped(s) && FreshRun(w, s, ops)
    decreases |ops|
  {
    ops == [] ||
    (ContainedOp(s, ops[0]) && (NextShaped(w, s, ops[0]); ContainedRun(w, Next(w, s, ops[0]), ops[1..])))
  }

  ghost predicate LegalRun<S>(w: World<S>, s: State<S>, ops: seq<Op<S>>)
    requires Shaped(s)
  {
    FreshRun(w, s, ops) && ContainedRun(w, s, ops)
  }

  /** The state after a run. Its shape holds in every state that a fresh run
      reaches, the whole invariant in every state that a legal run reaches. */
  ghost function Run<S>(w: World<S>, s: State<S>, ops: seq<Op<S>>): (t: State<S>)
    requires Shaped(s) && FreshRun(w, s, ops)
    ensures Shaped(t) && (Sound(w, s) && ContainedRun(w, s, ops) ==> Sound(w, t))
    decreases |ops|
  {
    if ops == [] then s else
      NextShaped(w, s, ops[0]);
      NextSoundIfContained(w, s, ops[0]);
      Run(w, Next(w, s, ops[0]), ops[1..])
  }

  /** No run loses a node or changes its parent, kind, commands or state. */
  lemma {:induction false} RunKeeps<S>(w: World<S>, s: State<S>, ops: seq<Op<S>>)
    requires Shaped(s) && FreshRun(w, s, ops)
    ensures Keeps(w, s, Run(w, s, ops))
    decreases |ops|
  {
    if ops != [] {
      NextShaped(w, s, ops[0]);
      RunKeeps(w, Next(w, s, ops[0]), ops[1..]);
      KeepsTransitive(w, s, Next(w, s, ops[0]), Run(w, s, ops));
    }
  }

  /** The first operation of a run, and what is left. */
  lemma {:induction false} RunUncons<S>(w: World<S>, s: State<S>, ops: seq<Op<S>>)
    requires Shaped(s) && FreshRun(w, s, ops) && ops != []
    ensures Ranked(s.graph) && FreshOp(w, s, ops[0]) && Shaped(Next(w, s, ops[0]))
    ensures FreshRun(w, Next(w, s, ops[0]), ops[1..])
    ensures Run(w, s, ops) == Run(w, Next(w, s, ops[0]), ops[1..])
  {
    hide Shaped, Tree, Next, FreshOp;
    ShapedIsRanked(s);
    NextShaped(w, s, ops[0]);
  }

  lemma {:induction false} RunCons<S>(w: World<S>, s: State<S>, ops: seq<Op<S>>)
    requires Shaped(s) && ops != [] && FreshOp(w, s, ops[0])
    requires Ranked(s.graph) && Shaped(Next(w, s, ops[0])) && FreshRun(w, Next(w, s, ops[0]), ops[1..])
    ensures FreshRun(w, s, ops) && Run(w, s, ops) == Run(w, Next(w, s, ops[0]), ops[1..])
  {
    hide Shaped, Tree, Next, FreshOp;
  }

  /** A run is its first part and then the rest. */
  lemma {:induction false} RunSplit<S>(w: World<S>, s: State<S>, ops: seq<Op<S>>, i: nat)
    requires Shaped(s) && FreshRun(w, s, ops) && i <= |ops|
    ensures FreshRun(w, s, ops[..i]) && FreshRun(w, Run(w, s, ops[..i]), ops[i..])
    ensures Run(w, s, ops) == Run(w, Run(w, s, ops[..i]), ops[i..])
    decreases i
  {
    hide Shaped, Ranked, Next, FreshOp, FreshRun, Run;
    if i == 0 {
      assert ops[..0] == [] && ops[0..] == ops;
      RunOfNothing(w, s);
    } else {
      RunUncons(w, s, ops);
      RunSplit(w, Next(w, s, ops[0]), ops[1..], i - 1);
      assert ops[..i][1..] == ops[1..][..i - 1] && ops[i..] == ops[1..][i - 1..] && ops[..i][0] == ops[0];
      RunCons(w, s, ops[..i]);
    }
  }

  lemma RunOfNothing<S>(w: World<S>, s: State<S>)
    requires Shaped(s)
    ensures FreshRun(w, s, []) && Run(w, s, []) == s
  {
    hide Shaped;
  }

  /** One more operation at the end of a run. */
  lemma {:induction false} RunStep<S>(w: World<S>, s: State<S>, ops: seq<Op<S>>, i: nat)
    requires Shaped(s) && FreshRun(w, s, ops) && i < |ops|
    ensures FreshRun(w, s, ops[..i]) && FreshOp(w, Run(w, s, ops[..i]), ops[i])
    ensures Ranked(Run(w, s, ops[..i]).graph) && FreshRun(w, s, ops[..i + 1])
    ensures Run(w, s, ops[..i + 1]) == Next(w, Run(w, s, ops[..i]), ops[i])
  {
    hide Shaped, Ranked, Next, FreshOp, FreshRun, Run;
    RunSplit(w, s, ops, i + 1);
    RunSplit(w, s, ops[..i + 1], i);
    assert ops[..i + 1][..i] == ops[..i];
    var before := Run(w, s, ops[..i]);
    assert ops[..i + 1][i..] == [ops[i]] && [ops[i]][1..] == [];
    RunUncons(w, before, [ops[i]]);
    RunOfNothing(w, Next(w, before, ops[i]));
  }

  /** Every run keeps one physical root, creation-ordered children lists and
      acyclic parents, and never removes or rewrites a node. */
  lemma {:induction false} TreeStaysWellFormed<S>(w: World<S>, s: State<S>, ops: seq<Op<S>>)
    requires Shaped(s) && FreshRun(w, s, ops)
    ensures Tree(Run(w, s, ops).graph) && Preserves(s.graph, Run(w, s, ops).graph)
  {
    RunKeeps(w, s, ops);
  }

  /** In every reachable state the registry's keys are exactly the physical
      ids; a known id fails to restore only when the backend itself fails; and
      starting an environment from a virtual id is refused and changes nothing. */
  lemma {:induction false} RegistryAgreement<S>(w: World<S>, s: State<S>, ops: seq<Op<S>>, id: Id, launch: Launch<S>)
    requires Shaped(s) && FreshRun(w, s, ops) && id in Run(w, s, ops).graph.nodes
    ensures var t := Run(w, s, ops);
      && (id in t.snapshots <==> !t.graph.nodes[id].isVirtual)
      && (Restores(t, id, launch) <==> launch.ok)
      && (t.graph.nodes[id].isVirtual ==> !Launches(t, id, launch) && CreateEnv(t, id, launch) == t)
  {
    RestoreEffect(w, Run(w, s, ops), id, launch);
  }

  /** Every image a run commits is registered, and for ever, under the manager's
      prefix, a colon and the id; no run renames an image. */
  lemma {:induction false} ImagesKeepTheirNames<S>(w: World<S>, s: State<S>, ops: seq<Op<S>>, id: Id)
    requires Shaped(s) && FreshRun(w, s, ops) && id in Run(w, s, ops).snapshots
    ensures Run(w, s, ops).snapshots[id]
      == if id in s.snapshots then s.snapshots[id] else Image(w.prefix + ":" + id.text)
    decreases |ops|
  {
    hide Shaped, Next, FreshOp;
    if ops != [] {
      RunUncons(w, s, ops);
      NextNames(w, s, ops[0]);
      RunNames(w, Next(w, s, ops[0]), ops[1..]);
      ImagesKeepTheirNames(w, Next(w, s, ops[0]), ops[1..], id);
    }
  }

  lemma {:induction false} RunNames<S>(w: World<S>, s: State<S>, ops: seq<Op<S>>)
    requires Shaped(s) && FreshRun(w, s, ops)
    ensures forall id :: id in s.snapshots ==> id in Run(w, s, ops).snapshots
    decreases |ops|
  {
    hide Shaped, Next, FreshOp;
    if ops != [] {
      RunUncons(w, s, ops);
      NextNames(w, s, ops[0]);
      RunNames(w, Next(w, s, ops[0]), ops[1..]);
    }
  }

  lemma {:induction false} NextNames<S>(w: World<S>, s: State<S>, op: Op<S>)
    requires Shaped(s) && FreshOp(w, s, op)
    ensures Ranked(s.graph) && NamesKept(w, s.snapshots, Next(w, s, op).snapshots)
  {
    hide Shaped, Tree, Ranked, Snapshot, Restore, Restores, NamesKept;
    ShapedIsRanked(s);
    match op
    case DoCmd(cmd) => SameNames(w, s.snapshots);
    case DoRestore(id, launch) =>
      RestoreEffect(w, s, id, launch);
      SameNames(w, s.snapshots);
    case DoSnapshot(luck) => SnapshotNames(w, s, luck);
    case DoStep(luck, launch) => SnapshotNames(w, s, luck);
  }

  ghost predicate NamesKept<S>(w: World<S>, before: map<Id, Image>, after: map<Id, Image>) {
    && (forall id :: id in before ==> id in after)
    && forall id :: id in after ==>
         after[id] == if id in before then before[id] else Image(w.prefix + ":" + id.text)
  }

  lemma SameNames<S>(w: World<S>, snapshots: map<Id, Image>)
    ensures NamesKept(w, snapshots, snapshots)
  {
  }

  lemma {:induction false} SnapshotNames<S>(w: World<S>, s: State<S>, luck: Luck)
    requires Shaped(s) && Fresh(w, s, luck)
    ensures NamesKept(w, s.snapshots, Snapshot(w, s, luck).snapshots)
  {
    hide Tree, Attach, NewNode;
  }

  /** The promise of the snapshot tree. In any well-shaped state, take a snapshot
      by `snapshot` or by `step`, go on in any way, with any failed starts, then
      restore it: the restore succeeds exactly when the backend does, the state
      after it is sound, and the environment is back in the state it had when
      the snapshot was taken, unless the snapshot was a virtual one of a state
      that was not sound. */
  lemma {:induction false} RestoreReturnsToTheMoment<S>(
    w: World<S>, moment: State<S>, ops: seq<Op<S>>, launch: Launch<S>)
    requires Shaped(moment) && FreshRun(w, moment, ops)
    requires ops != [] && (ops[0].DoSnapshot? || ops[0].DoStep?)
    requires NewId(w, moment, ops[0].luck).Some?
    ensures
      var id := NewId(w, moment, ops[0].luck).value;
      var later := Run(w, moment, ops);
      var back := Restore(w, later, id, launch);
      && (Restores(later, id, launch) <==> launch.ok)
      && (launch.ok ==>
            && Sound(w, back)
            && (back.live == moment.live <==> TakesPhysical(w, moment, ops[0].luck) || Sound(w, moment)))
  {
    hide Shaped, Tree, Ranked, Keeps, StateOf, Expected, Fresh, NewId, Snapshot, Restore, Restores, Exec, CreateEnv;
    var op := ops[0];
    var id := NewId(w, moment, op.luck).value;
    SnapshotCapturesIff(w, moment, op.luck);
    NextShaped(w, moment, op);
    ShapedIsRanked(moment);
    var taken := Next(w, moment, op);
    if op.DoStep? {
      StepEffect(w, moment, op.luck, op.launch);
    }
    RunKeeps(w, taken, ops[1..]);
    var later := Run(w, moment, ops);
    KeepsOne(w, taken, later, id);
    RestoreEffect(w, later, id, launch);
    RestoreSoundIff(w, later, id, launch);
  }
}
