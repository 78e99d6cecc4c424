/** Where the guarantees stop: the exact conditions under which an operation
    keeps the invariant, and the id arithmetic that meets the freshness one. */
module Limits {
  import opened Prelude
  import opened SnapshotTree
  import opened Deciders
  import opened Decimal
  import opened ManagerModel
  import opened Soundness
  import opened Reference
  import opened Policy
  import opened Accounts

  // ---------- a repeated id ----------

  lemma RepeatedIdBreaksTree(g: Graph, node: Node)
    requires Tree(g) && node.id in g.nodes && node.parent.Some? && node.parent.value in g.nodes && node.children == []
    ensures !Tree(Attach(g, node))
  {
    hide NoDup, ChildrenIn;
    var h, id, p := Attach(g, node), node.id, node.parent.value;
    var former := g.nodes[id].parent;
    if Tree(h) {
      assert h.order == g.order && id != g.order[0];
      assert ParentEarlier(h, id) && id != p;
      assert ParentEarlier(g, id) && ListsItsChildren(g, former.value) && ListsItsChildren(h, former.value);
      ChildrenHaveParent(g, g.order, former.value, id);
      ChildrenHaveParent(h, h.order, former.value, id);
      if former.value == p {
        ChildrenInSame(g, h, g.order, p);
      }
    }
  }

  /** The graph update of a snapshot keeps the tree exactly when the id is new.
      A repeated id overwrites a node that its old parent still lists. */
  lemma TreeSurvivesIffIdIsNew<S>(w: World<S>, s: State<S>, luck: Luck)
    requires Shaped(s) && NewId(w, s, luck).Some? && NewId(w, s, luck).value != Id("")
    ensures Tree(Snapshot(w, s, luck).graph) <==> NewId(w, s, luck).value !in s.graph.nodes
  {
    if NewId(w, s, luck).value in s.graph.nodes {
      RepeatedIdBreaksTree(s.graph, NewNode(w, s, luck));
    } else {
      AttachKeepsTree(s.graph, NewNode(w, s, luck));
    }
  }

  /** The node the walk of `restore` stands at after `steps` steps up. */
  function Climb(g: Graph, id: Id, steps: nat): Option<Id>
    decreases steps
  {
    if id !in g.nodes || !g.nodes[id].isVirtual then None
    else if steps == 0 then Some(id)
    else if g.nodes[id].parent.None? then None
    else Climb(g, g.nodes[id].parent.value, steps - 1)
  }

  /** The walk up from `id` ends. */
  ghost predicate WalkEnds(g: Graph, id: Id) {
    exists n: nat :: Climb(g, id, n) == None
  }

  /** `id` is one of the nodes the walk up from `from` visits. */
  predicate OnWalk(g: Graph, from: Id, id: Id)
    requires Ranked(g) && from in g.nodes
  {
    id in Chain(g, from) || Anchor(g, from) == Some(id)
  }

  /** The two graphs have the same links, except perhaps at `id`. */
  ghost predicate SameLinksBut(g: Graph, h: Graph, id: Id) {
    forall x :: x in g.nodes && x != id ==>
      x in h.nodes && h.nodes[x].isVirtual == g.nodes[x].isVirtual && h.nodes[x].parent == g.nodes[x].parent
  }

  lemma {:induction false} WalkEndsIfAvoided(g: Graph, h: Graph, id: Id, x: Id)
    requires Tree(g) && SameLinksBut(g, h, id) && x in g.nodes
    requires !OnWalk(g, x, id) || WalkEnds(h, id)
    ensures WalkEnds(h, x)
    decreases Rank(g.order, x)
  {
    assert ParentEarlier(g, x);
    if x != id {
      if g.nodes[x].isVirtual {
        var p := g.nodes[x].parent.value;
        WalkEndsIfAvoided(g, h, id, p);
        var n: nat :| Climb(h, p, n) == None;
        assert Climb(h, x, n + 1) == None;
      } else {
        assert Climb(h, x, 0) == None;
      }
    }
  }

  lemma {:induction false} WalkReaches(g: Graph, h: Graph, id: Id, x: Id) returns (k: nat)
    requires Tree(g) && SameLinksBut(g, h, id) && x in g.nodes
    requires OnWalk(g, x, id) && id in h.nodes && h.nodes[id].isVirtual
    ensures Climb(h, x, k) == Some(id)
    decreases Rank(g.order, x)
  {
    assert ParentEarlier(g, x);
    if x == id {
      k := 0;
    } else {
      k := WalkReaches(g, h, id, g.nodes[x].parent.value);
      k := k + 1;
    }
  }

  lemma {:induction false} ClimbOn(g: Graph, x: Id, i: nat, j: nat)
    ensures Climb(g, x, i + j) == if Climb(g, x, i).Some? then Climb(g, Climb(g, x, i).value, j) else None
    decreases i
  {
    if i > 0 && x in g.nodes && g.nodes[x].isVirtual && g.nodes[x].parent.Some? {
      ClimbOn(g, g.nodes[x].parent.value, i - 1, j);
    }
  }

  lemma EndsAfter(g: Graph, id: Id, n: nat)
    requires Climb(g, id, n) == None
    ensures WalkEnds(g, id)
  {
  }

  lemma EndOf(g: Graph, id: Id) returns (n: nat)
    requires WalkEnds(g, id)
    ensures Climb(g, id, n) == None
  {
    n :| Climb(g, id, n) == None;
  }

  /** Whoever comes back to where it was is walking for ever. */
  lemma {:induction false} CycleNeverEnds(g: Graph, x: Id, m: nat)
    requires m > 0 && Climb(g, x, m) == Some(x)
    ensures !WalkEnds(g, x)
  {
    forall n: nat ensures Climb(g, x, n) != None { CycleGoesOn(g, x, m, n); }
  }

  lemma {:induction false} CycleGoesOn(g: Graph, x: Id, m: nat, n: nat)
    requires m > 0 && Climb(g, x, m) == Some(x)
    ensures Climb(g, x, n).Some?
    decreases n
  {
    if n >= m {
      ClimbOn(g, x, m, n - m);
      CycleGoesOn(g, x, m, n - m);
    } else {
      ClimbOn(g, x, n, m - n);
    }
  }

  /** Every walk of `restore` in the graph after a snapshot ends, and the walk
      from the new node ends, exactly when the snapshot is physical or its id is
      not one of the nodes on the walk up from `last`. Not only an id that
      repeats the parent's loops: so does any virtual ancestor's. */
  lemma {:induction false} WalksEndIffIdIsOffTheWalk<S>(w: World<S>, s: State<S>, luck: Luck)
    requires Shaped(s) && NewId(w, s, luck).Some?
    ensures
      var h := Snapshot(w, s, luck).graph; var id := NewId(w, s, luck).value;
      && (WalkEnds(h, id) <==> TakesPhysical(w, s, luck) || !OnWalk(s.graph, s.last.value, id))
      && (WalkEnds(h, id) <==> forall x :: x in h.nodes ==> WalkEnds(h, x))
  {
    hide RegistryMatches, NoDup, Keyed, WalkEnds, OnWalk;
    var g, h, id := s.graph, Snapshot(w, s, luck).graph, NewId(w, s, luck).value;
    var y := s.last.value;
    NewLinks(w, s, luck);
    if TakesPhysical(w, s, luck) {
      EndsAfter(h, id, 0);
    } else if OnWalk(g, y, id) {
      var k := WalkReaches(g, h, id, y);
      assert Climb(h, id, k + 1) == Some(id);
      CycleNeverEnds(h, id, k + 1);
    } else {
      WalkEndsIfAvoided(g, h, id, y);
      var n := EndOf(h, y);
      EndsAfter(h, id, n + 1);
    }
    if WalkEnds(h, id) {
      forall x | x in h.nodes ensures WalkEnds(h, x) {
        if x != id { WalkEndsIfAvoided(g, h, id, x); }
      }
    }
  }

  /** The links after a snapshot, with a new id or a repeated one. */
  lemma {:induction false} NewLinks<S>(w: World<S>, s: State<S>, luck: Luck)
    requires Shaped(s) && NewId(w, s, luck).Some?
    ensures
      var h := Snapshot(w, s, luck).graph; var id := NewId(w, s, luck).value;
      && SameLinksBut(s.graph, h, id) && h.nodes.Keys == s.graph.nodes.Keys + {id}
      && h.nodes[id].isVirtual == !TakesPhysical(w, s, luck) && h.nodes[id].parent == s.last
  {
    hide RegistryMatches, NoDup, Keyed, Attach, SameLinksBut;
    AttachLinks(s.graph, NewNode(w, s, luck));
  }

  lemma AttachLinks(g: Graph, node: Node)
    requires node.parent.Some? && node.parent.value in g.nodes
    ensures
      var h := Attach(g, node);
      && SameLinksBut(g, h, node.id) && h.nodes.Keys == g.nodes.Keys + {node.id}
      && h.nodes[node.id].isVirtual == node.isVirtual && h.nodes[node.id].parent == node.parent
  {
  }

  /** The sharpest case: a virtual snapshot that repeats its parent's id is its
      own parent, and every step of the walk stays there. */
  lemma {:induction false} SelfParentNeverEnds<S>(w: World<S>, s: State<S>, luck: Luck, steps: nat)
    requires Shaped(s) && !TakesPhysical(w, s, luck) && s.last == Some(Id(VirtualId(luck.ms)))
    ensures Climb(Snapshot(w, s, luck).graph, s.last.value, steps) == s.last
  {
    if steps > 0 {
      SelfParentNeverEnds(w, s, luck, steps - 1);
    }
  }

  // ---------- a failed start and a stray start ----------

  /** After a failed restore, in any well-shaped state: the state is sound
      exactly when the failure left the expected environment; every node still
      restores to what it stood for, into a sound state; and the next snapshot
      captures the live environment exactly when it is physical or that failure
      did no harm. */
  lemma {:induction false} FailedRestoreSoundIff<S>(
    w: World<S>, s: State<S>, id: Id, launch: Launch<S>, luck: Luck, other: Id, again: Launch<S>)
    requires Shaped(s) && id in s.graph.nodes && !launch.ok
    requires other in s.graph.nodes && again.ok
    ensures
      var t := Restore(w, s, id, launch);
      && !Restores(s, id, launch) && Shaped(t)
      && (Sound(w, t) <==> launch.left == Expected(w, s))
      && (Restores(t, other, again) && Sound(w, Restore(w, t, other, again)))
      && Restore(w, t, other, again).live == StateOf(w, s, other)
      && (Fresh(w, t, luck) && NewId(w, t, luck).Some? ==>
            var u := Snapshot(w, t, luck);
            Shaped(u) && NewId(w, t, luck).value in u.graph.nodes
            && (StateOf(w, u, NewId(w, t, luck).value) == launch.left <==>
                  TakesPhysical(w, t, luck) || launch.left == Expected(w, s)))
  {
    hide StateOf, Expected, Sound, RegistryMatches, Tree, Restore, Restores, Snapshot;
    ShapedIsRanked(s);
    RestoreEffect(w, s, id, launch);
    RestoreSoundIff(w, s, id, launch);
    var t := Restore(w, s, id, launch);
    KeepsOne(w, s, t, other);
    RestoreEffect(w, t, other, again);
    RestoreSoundIff(w, t, other, again);
    if Fresh(w, t, luck) && NewId(w, t, luck).Some? { SnapshotCapturesIff(w, t, luck); }
  }

  /** After starting an environment from any registered id, restoring the next
      virtual snapshot gives the state from before the start, and so the state
      it was taken in exactly when the two are the same. */
  lemma {:induction false} StrayStartMisplacesSnapshot<S>(
    w: World<S>, s: State<S>, id: Id, launch: Launch<S>, luck: Luck, again: Launch<S>)
    requires Sound(w, s) && id in s.snapshots
    requires !TakesPhysical(w, s, luck) && Fresh(w, s, luck) && again.ok
    ensures
      var m := CreateEnv(s, id, launch);
      var t := Snapshot(w, m, luck);
      var made := NewId(w, m, luck).value;
      && s.snapshots[id] in s.store && m.live == Started(s, id, launch)
      && Shaped(t) && Restores(t, made, again)
      && Restore(w, t, made, again).live == s.live
      && (Restore(w, t, made, again).live == m.live <==> Started(s, id, launch) == s.live)
  {
    hide StateOf, Expected, RegistryMatches, Tree, Restore, Restores, Started, Snapshot;
    var m := CreateEnv(s, id, launch);
    var t := Snapshot(w, m, luck);
    CreateEnvEffect(w, s, id, launch);
    assert NewId(w, m, luck) == NewId(w, s, luck) && Fresh(w, m, luck);
    SnapshotCaptures(w, m, luck);
    RestoreEffect(w, t, NewId(w, m, luck).value, again);
  }

  // ---------- concrete runs ----------

  /** A fresh manager over integers whose image is the live state. */
  function Demo(w: World<int>): State<int> {
    Attached(w, BASE, map[ImageName(w, BASE) := 0], 0)
  }

  lemma DemoSound(w: World<int>)
    ensures Sound(w, Demo(w)) && Slack(w, Demo(w)) == 0.0
  {
    AttachedSoundIff(w, BASE, map[ImageName(w, BASE) := 0], 0);
    FreshManagerIsBalanced(w, BASE, map[ImageName(w, BASE) := 0], 0, 0.0);
  }

  /** A run, one operation longer. */
  lemma {:induction false} RunOfMore<S>(w: World<S>, s: State<S>, op: Op<S>, rest: seq<Op<S>>)
    requires Shaped(s) && FreshOp(w, s, op) && Shaped(Next(w, s, op)) && FreshRun(w, Next(w, s, op), rest)
    ensures FreshRun(w, s, [op] + rest) && Run(w, s, [op] + rest) == Run(w, Next(w, s, op), rest)
    ensures ContainedOp(s, op) && ContainedRun(w, Next(w, s, op), rest) ==> LegalRun(w, s, [op] + rest)
  {
    hide Tree, Ranked, Keeps, StateOf, Expected, Fresh, NewId, Next, RegistryMatches, FreshOp, ContainedOp;
    assert ([op] + rest)[1..] == rest;
  }

  lemma {:induction false} RunOfTwo<S>(w: World<S>, s: State<S>, a: Op<S>, b: Op<S>)
    requires Shaped(s) && FreshOp(w, s, a) && Shaped(Next(w, s, a)) && FreshOp(w, Next(w, s, a), b)
    ensures FreshRun(w, s, [a, b]) && Run(w, s, [a, b]) == Next(w, Next(w, s, a), b)
    ensures ContainedOp(s, a) && ContainedOp(Next(w, s, a), b) ==> LegalRun(w, s, [a, b])
  {
    hide Tree, Ranked, Keeps, StateOf, Expected, Fresh, NewId, Next, RegistryMatches, FreshOp, ContainedOp;
    ShapedIsRanked(s);
    var t := Next(w, s, a);
    ShapedIsRanked(t);
    NextShaped(w, t, b);
    RunOfMore(w, t, b, []);
    assert [b] + [] == [b] && [a] + [b] == [a, b];
    RunOfMore(w, s, a, [b]);
  }

  /** Every command takes one second and changes nothing. */
  function Steady(): World<int> {
    World((x: int, c: Command) => Outcome(x, false, 0, "", "", 1.0), AlwaysFalseDecider, "app")
  }

  /** The documented equality fails on a run from a fresh manager: one command
      of one second, then a restore of the root. The counter says one second,
      the path since the image costs none. */
  lemma CounterOvershoots()
    ensures
      var w := Steady(); var ops := [DoCmd(Raw("sleep 1")), DoRestore(BASE, Launch(true, 0.0, 0))];
      && Sound(w, Demo(w)) && LegalRun(w, Demo(w), ops)
      && Slack(w, Demo(w)) == 0.0
      && var t := Run(w, Demo(w), ops);
         t.last == Some(BASE) && t.cum == 1.0 && PathCost(w, t, BASE) + PendingCost(w, t) == 0.0
  {
    hide StateOf, Expected, RegistryMatches;
    var w := Steady();
    DemoSound(w);
    var a, b := DoCmd(Raw("sleep 1")), DoRestore(BASE, Launch(true, 0.0, 0));
    NextSound(w, Demo(w), a);
    var s := Next(w, Demo(w), a);
    RunOfTwo(w, Demo(w), a, b);
    RestoreEffect(w, s, BASE, b.launch);
    RestoreSlack(w, s, BASE, b.launch);
    assert s.cum == 1.0;
  }

  /** A command that raises after ten seconds. */
  function Hanging(): World<int> {
    World(
      (x: int, c: Command) => Outcome(x, true, -1, "", "timed out", 10.0),
      ThresholdDecider(DEFAULT_THRESHOLD), "app")
  }

  const HANG := Raw("hang")

  lemma AfterHang()
    ensures var w := Hanging(); var s := Exec(w, Demo(w), HANG);
      && Sound(w, Demo(w)) && Sound(w, s) && Bounded(w, Demo(w), DEFAULT_THRESHOLD) && s.cum == 0.0 && s.log == [HANG]
      && s.last == Some(BASE) && s.graph.nodes.Keys == {BASE} && Replay(s.graph, BASE) == []
  {
    var w := Hanging();
    DemoSound(w);
    FreshManagerIsBalanced(w, BASE, map[ImageName(w, BASE) := 0], 0, DEFAULT_THRESHOLD);
    ExecSound(w, Demo(w), HANG);
    assert Chain(Demo(w).graph, BASE) == [];
  }

  /** The threshold does not bound real replay time when commands raise: run one
      command that raises after ten seconds and take a snapshot. The command was
      not counted, so the snapshot is virtual, and it replays for ten seconds. */
  lemma RaisingReplayExceedsThreshold()
    ensures
      var w := Hanging(); var ops := [DoCmd(HANG), DoSnapshot(Luck(false, 0, None))];
      var id := Id(VirtualId(0));
      && DEFAULT_THRESHOLD == 5.0
      && Sound(w, Demo(w)) && Bounded(w, Demo(w), DEFAULT_THRESHOLD) && LegalRun(w, Demo(w), ops)
      && var t := Run(w, Demo(w), ops);
         && id in t.graph.nodes && t.graph.nodes[id].isVirtual
         && PathCost(w, t, id) == 0.0 && TimeSpent(w, Base(t, id), Replay(t.graph, id)) == 10.0
  {
    hide Attach, Demo, Padded, StateOf, Expected, VirtualId, RegistryMatches, Tree;
    var w := Hanging();
    AfterHang();
    var a, b := DoCmd(HANG), DoSnapshot(Luck(false, 0, None));
    ShapedIsRanked(Demo(w));
    var s := Next(w, Demo(w), a);
    IdOfZero();
    var id := Id(VirtualId(0));
    assert NewId(w, s, b.luck) == Some(id) && Fresh(w, s, b.luck);
    assert Shaped(s) && FreshOp(w, s, b);
    RunOfTwo(w, Demo(w), a, b);
    SnapshotCaptures(w, s, b.luck);
    SnapshotGraph(w, s, b.luck);
    var t := Snapshot(w, s, b.luck);
    ShapedIsRanked(t);
    assert Replay(t.graph, id) == [] + [HANG] == [HANG];
    HangTime(Base(t, id));
  }

  lemma HangTime(x: int)
    ensures TimeSpent(Hanging(), x, [HANG]) == 10.0 && CostOf(Hanging(), x, [HANG]) == 0.0
  {
    assert [HANG][..0] == [];
  }

  /** An environment that a failed start breaks: a command takes ten seconds in
      the working state 0, and fails at once in any other. */
  function Flaky(decider: Decider): World<int> {
    World(
      (x: int, c: Command) => if x == 0 then Outcome(0, false, 0, "", "", 10.0) else Outcome(x, false, 1, "", "", 0.0),
      decider, "app")
  }

  const WORK := Raw("work")

  /** The threshold does not bound counted replay time when a failed start breaks
      the environment: restore the root in vain, run one command, take a snapshot.
      The command costs nothing in the broken environment, so the snapshot is
      virtual, and its replay from the image costs ten seconds. */
  lemma {:induction false} BrokenStartExceedsThreshold()
    ensures
      var w := Flaky(ThresholdDecider(DEFAULT_THRESHOLD));
      var ops := [DoRestore(BASE, Launch(false, 0.0, 1)), DoCmd(WORK), DoSnapshot(Luck(false, 0, None))];
      var id := Id(VirtualId(0));
      && DEFAULT_THRESHOLD == 5.0
      && Sound(w, Demo(w)) && Bounded(w, Demo(w), DEFAULT_THRESHOLD) && Slack(w, Demo(w)) == 0.0
      && FreshRun(w, Demo(w), ops)
      && var t := Run(w, Demo(w), ops);
         id in t.graph.nodes && t.graph.nodes[id].isVirtual && PathCost(w, t, id) == 10.0
  {
    hide Attach, Demo, Padded, StateOf, Expected, VirtualId, RegistryMatches, Tree, Restore, Restores, PathCost;
    hide Slack, CostOf, FreshRun, Run;
    var w := Flaky(ThresholdDecider(DEFAULT_THRESHOLD));
    var a, b, c := DoRestore(BASE, Launch(false, 0.0, 1)), DoCmd(WORK), DoSnapshot(Luck(false, 0, None));
    DemoStart(w);
    ShapedIsRanked(Demo(w));
    NextShaped(w, Demo(w), a);
    RestoreEffect(w, Demo(w), BASE, a.launch);
    var s1 := Next(w, Demo(w), a);
    ShapedIsRanked(s1);
    NextShaped(w, s1, b);
    var s2 := Next(w, s1, b);
    assert s2.cum == 0.0 && s2.graph == Demo(w).graph && s2.log == [WORK];
    IdOfZero();
    assert FreshOp(w, s2, c);
    SlackLaw(w, Demo(w), a);
    SlackLaw(w, s1, b);
    assert Charge(w.run(s1.live, WORK)) == 0.0;
    ExpectedAfterFailure(w);
    NewNodeCost(w, s2, c);
    RunOfTwo(w, s1, b, c);
    assert [a] + [b, c] == [a, b, c];
    RunOfMore(w, Demo(w), a, [b, c]);
  }

  lemma {:induction false} DemoStart(w: World<int>)
    ensures
      var s := Demo(w);
      && Sound(w, s) && Bounded(w, s, DEFAULT_THRESHOLD) && Slack(w, s) == 0.0 && Expected(w, s) == 0
      && s.graph.nodes.Keys == {BASE} && s.cum == 0.0 && s.log == [] && s.live == 0 && s.last == Some(BASE)
      && s.store.Keys == {ImageName(w, BASE)}
  {
    AttachedShaped(w, BASE, map[ImageName(w, BASE) := 0], 0);
    DemoSound(w);
    FreshManagerIsBalanced(w, BASE, map[ImageName(w, BASE) := 0], 0, DEFAULT_THRESHOLD);
  }

  /** A failed restore does not move the expected environment. */
  lemma {:induction false} ExpectedAfterFailure(w: World<int>)
    ensures var t := Restore(w, Demo(w), BASE, Launch(false, 0.0, 1)); Shaped(t) && Expected(w, t) == 0
  {
    hide Demo, StateOf, RegistryMatches, Tree, Restore, Restores, RunAll;
    DemoStart(w);
    ShapedIsRanked(Demo(w));
    RestoreEffect(w, Demo(w), BASE, Launch(false, 0.0, 1));
    RestoreSoundIff(w, Demo(w), BASE, Launch(false, 0.0, 1));
    var t := Restore(w, Demo(w), BASE, Launch(false, 0.0, 1));
    KeepsOne(w, Demo(w), t, BASE);
  }

  const BREAKING := Luck(false, 0, Some((Id("00000001"), 0.0)))

  lemma BreakingIsFresh(w: World<int>)
    ensures Id("00000001") != BASE && Id("00000001") != Id("")
    ensures ImageName(w, Id("00000001")) != ImageName(w, BASE)
  {
    assert "00000001"[0] == '0' && "base"[0] == 'b';
    ImageNamesDistinct(w, Id("00000001"), BASE);
  }

  /** A physical snapshot whose start fails leaves a broken environment. */
  lemma {:induction false} StepBreaks()
    ensures
      var w := Flaky(AlwaysTrueDecider); var op := DoStep(BREAKING, Launch(false, 0.0, 1));
      && Sound(w, Demo(w)) && Slack(w, Demo(w)) == 0.0 && FreshOp(w, Demo(w), op)
      && var s := Next(w, Demo(w), op);
         Shaped(s) && Expected(w, s) == 0 && s.live == 1 && s.cum == 0.0 && Slack(w, s) == 0.0
  {
    hide Attach, Demo, StateOf, Expected, RegistryMatches, Tree, Slack, BREAKING, RunAll;
    var w := Flaky(AlwaysTrueDecider);
    var op := DoStep(BREAKING, Launch(false, 0.0, 1));
    DemoStart(w);
    BreakingIsFresh(w);
    BreakingLuck();
    assert FreshOp(w, Demo(w), op);
    ShapedIsRanked(Demo(w));
    StepEffect(w, Demo(w), BREAKING, op.launch);
    SnapshotCaptures(w, Demo(w), BREAKING);
    SlackLaw(w, Demo(w), op);
  }

  lemma BreakingLuck()
    ensures BREAKING.commit == Some((Id("00000001"), 0.0))
  {
  }

  /** The documented equality fails without any restore when a failed start of
      `step` breaks the environment: the command that follows is not charged, but
      its replay from the image just taken costs ten seconds. */
  lemma {:induction false} BrokenStepMiscounts()
    ensures
      var w := Flaky(AlwaysTrueDecider);
      var ops := [DoStep(BREAKING, Launch(false, 0.0, 1)), DoCmd(WORK)];
      && Sound(w, Demo(w)) && Slack(w, Demo(w)) == 0.0 && FreshRun(w, Demo(w), ops)
      && var t := Run(w, Demo(w), ops);
         t.cum == 0.0 && PathCost(w, t, t.last.value) + PendingCost(w, t) == 10.0
  {
    hide Attach, Demo, StateOf, Expected, Shaped, Tree, Ranked, PathCost, PendingCost, FreshRun, Run, BREAKING;
    hide Snapshot, CreateEnv, Fresh;
    var w := Flaky(AlwaysTrueDecider);
    var a, b := DoStep(BREAKING, Launch(false, 0.0, 1)), DoCmd(WORK);
    StepBreaks();
    ShapedIsRanked(Demo(w));
    var s := Next(w, Demo(w), a);
    ShapedIsRanked(s);
    SlackLaw(w, s, b);
    RunOfTwo(w, Demo(w), a, b);
  }

  lemma IdOfZero()
    ensures VirtualId(0) != "base" && VirtualId(0) != "" && Id(VirtualId(0)) != BASE
  {
    assert VirtualId(0)[0] == 'v';
  }

  // ---------- clocks and UUIDs ----------

  predicate HasLuck<S>(op: Op<S>) { op.DoSnapshot? || op.DoStep? }

  /** The clock readings of a run are distinct and inside one window of 10^7
      milliseconds, and its physical ids are distinct UUID prefixes. */
  ghost predicate GoodClocks<S>(ops: seq<Op<S>>, start: nat) {
    && (forall i :: 0 <= i < |ops| && HasLuck(ops[i]) ==>
          && start <= ops[i].luck.ms < start + 10_000_000
          && (ops[i].luck.commit.Some? ==> IsPhysicalId(ops[i].luck.commit.value.0.text)))
    && (forall i, j :: 0 <= i < j < |ops| && HasLuck(ops[i]) && HasLuck(ops[j]) ==>
          DistinctLuck(ops[i].luck, ops[j].luck))
  }

  predicate DistinctLuck(a: Luck, b: Luck) {
    a.ms != b.ms && (a.commit.Some? && b.commit.Some? ==> a.commit.value.0 != b.commit.value.0)
  }

  /** None of the ids a luck could produce is in use. */
  ghost predicate Unused<S>(w: World<S>, s: State<S>, luck: Luck) {
    && Id(VirtualId(luck.ms)) !in s.graph.nodes
    && (luck.commit.Some? ==>
          luck.commit.value.0 !in s.graph.nodes && ImageName(w, luck.commit.value.0) !in s.store)
  }

  lemma ImageNamesDistinct<S>(w: World<S>, a: Id, b: Id)
    requires a != b
    ensures ImageName(w, a) != ImageName(w, b)
  {
    var n := |w.prefix + ":"|;
    assert ImageName(w, a).name[n..] == a.text && ImageName(w, b).name[n..] == b.text;
  }

  lemma {:induction false} UnusedStaysUnused<S>(w: World<S>, s: State<S>, made: Luck, luck: Luck, start: nat)
    requires Unused(w, s, made) && Unused(w, s, luck) && DistinctLuck(made, luck)
    requires start <= made.ms < start + 10_000_000 && start <= luck.ms < start + 10_000_000
    requires made.commit.Some? ==> IsPhysicalId(made.commit.value.0.text)
    requires luck.commit.Some? ==> IsPhysicalId(luck.commit.value.0.text)
    ensures Unused(w, Snapshot(w, s, made), luck)
  {
    hide VirtualId, IsPhysicalId, ImageName, Truthy;
    VirtualIdsDistinct(made.ms, luck.ms, start);
    if made.commit.Some? {
      IdKindsDisjoint(luck.ms, made.commit.value.0.text);
      if luck.commit.Some? { ImageNamesDistinct(w, made.commit.value.0, luck.commit.value.0); }
    }
    if luck.commit.Some? { IdKindsDisjoint(made.ms, luck.commit.value.0.text); }
  }

  lemma UnusedIsFresh<S>(w: World<S>, s: State<S>, luck: Luck)
    requires Unused(w, s, luck) && (luck.commit.Some? ==> IsPhysicalId(luck.commit.value.0.text))
    ensures Fresh(w, s, luck)
  {
    assert VirtualId(luck.ms)[0] == 'v';
    if luck.commit.Some? { IdKindsDisjoint(luck.ms, luck.commit.value.0.text); }
  }

  lemma {:induction false} UnusedAfterNext<S>(w: World<S>, s: State<S>, op: Op<S>, luck: Luck, start: nat)
    requires Shaped(s) && Unused(w, s, luck)
    requires start <= luck.ms < start + 10_000_000
    requires luck.commit.Some? ==> IsPhysicalId(luck.commit.value.0.text)
    requires HasLuck(op) ==>
      && Unused(w, s, op.luck) && DistinctLuck(op.luck, luck) && start <= op.luck.ms < start + 10_000_000
      && (op.luck.commit.Some? ==> IsPhysicalId(op.luck.commit.value.0.text))
    ensures Unused(w, Next(w, s, op), luck)
  {
    hide RunAll, Commands, Attach;
    if HasLuck(op) {
      UnusedStaysUnused(w, s, op.luck, luck, start);
    } else if op.DoRestore? {
      RestoreEffect(w, s, op.id, op.launch);
    }
  }

  lemma GoodClocksTail<S>(ops: seq<Op<S>>, start: nat)
    requires ops != [] && GoodClocks(ops, start)
    ensures GoodClocks(ops[1..], start)
  {
    var rest := ops[1..];
    assert forall i :: 0 <= i < |rest| ==> rest[i] == ops[i + 1];
    forall i, j | 0 <= i < j < |rest| && HasLuck(rest[i]) && HasLuck(rest[j])
      ensures DistinctLuck(rest[i].luck, rest[j].luck)
    {
      assert rest[i] == ops[i + 1] && rest[j] == ops[j + 1];
    }
  }

  /** Good clocks make every snapshot of a run fresh, whatever its starts do, so
      such a run is legal exactly when each failed start left the environment
      alone. */
  lemma {:induction false} GoodClocksMakeRunsFresh<S>(w: World<S>, s: State<S>, ops: seq<Op<S>>, start: nat)
    requires Shaped(s) && GoodClocks(ops, start)
    requires forall i :: 0 <= i < |ops| && HasLuck(ops[i]) ==> Unused(w, s, ops[i].luck)
    ensures FreshRun(w, s, ops) && (LegalRun(w, s, ops) <==> ContainedRun(w, s, ops))
    decreases |ops|
  {
    hide StateOf, RegistryMatches, Unused, Next, Fresh;
    if ops != [] {
      var op, rest := ops[0], ops[1..];
      if HasLuck(op) { UnusedIsFresh(w, s, op.luck); }
      assert FreshOp(w, s, op);
      NextShaped(w, s, op);
      GoodClocksTail(ops, start);
      forall i | 0 <= i < |rest| && HasLuck(rest[i])
        ensures Unused(w, Next(w, s, op), rest[i].luck)
      {
        assert rest[i] == ops[i + 1];
        UnusedAfterNext(w, s, op, rest[i].luck, start);
      }
      GoodClocksMakeRunsFresh(w, Next(w, s, op), rest, start);
    }
  }

  /** A manager attached to a container with one image: good clocks alone make
      every run fresh, unless the image is named like a snapshot. */
  lemma {:induction false} GoodClocksFromTheStart<S>(
    w: World<S>, tag: Id, image: S, live: S, ops: seq<Op<S>>, start: nat)
    requires !IsPhysicalId(tag.text) && GoodClocks(ops, start)
    ensures
      var s := Attached(w, tag, map[ImageName(w, tag) := image], live);
      Shaped(s) && FreshRun(w, s, ops)
  {
    hide FreshRun, Shaped, VirtualId, IsPhysicalId;
    var images := map[ImageName(w, tag) := image];
    var s := Attached(w, tag, images, live);
    AttachedShaped(w, tag, images, live);
    forall i | 0 <= i < |ops| && HasLuck(ops[i]) ensures Unused(w, s, ops[i].luck) {
      UnusedAtFirst(w, tag, image, live, ops[i].luck);
    }
    GoodClocksMakeRunsFresh(w, s, ops, start);
  }

  lemma {:induction false} UnusedAtFirst<S>(w: World<S>, tag: Id, image: S, live: S, luck: Luck)
    requires !IsPhysicalId(tag.text) && (luck.commit.Some? ==> IsPhysicalId(luck.commit.value.0.text))
    ensures Unused(w, Attached(w, tag, map[ImageName(w, tag) := image], live), luck)
  {
    assert VirtualId(luck.ms)[0] == 'v';
    if luck.commit.Some? {
      IdKindsDisjoint(luck.ms, luck.commit.value.0.text);
      ImageNamesDistinct(w, luck.commit.value.0, tag);
    }
  }
}
