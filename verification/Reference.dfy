/** The simple machine that the snapshot tree implements: every snapshot is a
    full copy of the state, named by its creation rank. No policy, no images,
    no replay. */
module Reference {
  import opened Prelude
  import opened SnapshotTree
  import opened ManagerModel
  import opened Soundness

  /** A full copy, the rank of the snapshot it was taken after, and the user's
      commands in between. */
  datatype Copy<+S> = Copy(state: S, parent: Option<nat>, commands: seq<Command>)

  datatype Ref<+S> = Ref(copies: seq<Copy<S>>, last: nat, pending: seq<Command>, live: S)

  /** What happens to the reference machine. `Broke` is the one event that no
      user asks for: a failed start of a backend replaced the live environment. */
  datatype Event<+S> = Save | Back(rank: nat) | Do(cmd: Command) | Broke(left: S)

  ghost predicate WellRanked<S>(r: Ref<S>) {
    && r.last < |r.copies|
    && forall k :: 0 <= k < |r.copies| && r.copies[k].parent.Some? ==> r.copies[k].parent.value < k
  }

  function RefNext<S>(w: World<S>, r: Ref<S>, e: Event<S>): (u: Ref<S>)
    ensures r.copies <= u.copies
  {
    match e
    case Save => Ref(r.copies + [Copy(r.live, Some(r.last), r.pending)], |r.copies|, [], r.live)
    case Back(k) => if k < |r.copies| then Ref(r.copies, k, [], r.copies[k].state) else r
    case Do(cmd) => r.(live := w.run(r.live, cmd).after, pending := r.pending + [cmd])
    case Broke(left) => r.(live := left)
  }

  /** No run of the reference machine loses or changes a copy. */
  function RefRun<S>(w: World<S>, r: Ref<S>, es: seq<Event<S>>): (u: Ref<S>)
    ensures r.copies <= u.copies
    decreases |es|
  {
    if es == [] then r else RefRun(w, RefNext(w, r, es[0]), es[1..])
  }

  /** The replies a user of the reference machine sees. */
  function RefReplies<S>(w: World<S>, r: Ref<S>, es: seq<Event<S>>): seq<Reply>
    decreases |es|
  {
    if es == [] then []
    else
      (if es[0].Do? then [ReplyOf(w.run(r.live, es[0].cmd))] else [])
      + RefReplies(w, RefNext(w, r, es[0]), es[1..])
  }

  lemma {:induction false} RefRunAppend<S>(w: World<S>, r: Ref<S>, a: seq<Event<S>>, b: seq<Event<S>>)
    ensures RefRun(w, r, a + b) == RefRun(w, RefRun(w, r, a), b)
    ensures RefReplies(w, r, a + b) == RefReplies(w, r, a) + RefReplies(w, RefRun(w, r, a), b)
    decreases |a|
  {
    hide RefNext, ReplyOf;
    if a == [] {
      assert a + b == b;
    } else {
      assert (a + b)[1..] == a[1..] + b;
      RefRunAppend(w, RefNext(w, r, a[0]), a[1..], b);
    }
  }

  lemma RefRunOne<S>(w: World<S>, r: Ref<S>, e: Event<S>)
    ensures RefRun(w, r, [e]) == RefNext(w, r, e)
    ensures RefReplies(w, r, [e]) == if e.Do? then [ReplyOf(w.run(r.live, e.cmd))] else []
  {
    assert [e][1..] == [];
  }

  lemma RefRunTwo<S>(w: World<S>, r: Ref<S>, a: Event<S>, b: Event<S>)
    ensures RefRun(w, r, [a, b]) == RefNext(w, RefNext(w, r, a), b)
    ensures !a.Do? && !b.Do? ==> RefReplies(w, r, [a, b]) == []
  {
    assert [a, b][1..] == [b];
    RefRunOne(w, RefNext(w, r, a), b);
  }

  // ---------- the coupling ----------

  /** Node `k` of the manager has the commands and the parent of copy `k`. */
  ghost predicate SameLinks<S>(s: State<S>, r: Ref<S>, k: nat)
    requires Shaped(s) && |r.copies| == |s.graph.order| && k < |r.copies|
  {
    var n := s.graph.nodes[s.graph.order[k]];
    var c := r.copies[k];
    && (n.isVirtual ==> n.replay == c.commands)
    && (c.parent.None? <==> n.parent.None?)
    && (c.parent.Some? ==> c.parent.value < k && n.parent == Some(s.graph.order[c.parent.value]))
  }

  /** The manager has the tree, the position and the pending log of the reference. */
  ghost predicate Mirrors<S>(s: State<S>, r: Ref<S>)
    requires Shaped(s)
  {
    && |r.copies| == |s.graph.order|
    && r.last < |r.copies| && s.last == Some(s.graph.order[r.last]) && r.pending == s.log
    && forall k {:trigger SameLinks(s, r, k)} :: 0 <= k < |r.copies| ==> SameLinks(s, r, k)
  }

  /** Node `k` stands for the state that copy `k` holds. */
  ghost predicate HoldsCopy<S>(w: World<S>, s: State<S>, r: Ref<S>, k: nat)
    requires Shaped(s) && |r.copies| == |s.graph.order| && k < |r.copies|
  {
    r.copies[k].state == StateOf(w, s, s.graph.order[k])
  }

  ghost predicate HoldsCopies<S>(w: World<S>, s: State<S>, r: Ref<S>)
    requires Shaped(s) && |r.copies| == |s.graph.order|
  {
    forall k {:trigger HoldsCopy(w, s, r, k)} :: 0 <= k < |r.copies| ==> HoldsCopy(w, s, r, k)
  }

  ghost predicate Refines<S>(w: World<S>, s: State<S>, r: Ref<S>)
    requires Shaped(s)
  {
    Mirrors(s, r) && r.live == s.live && HoldsCopies(w, s, r)
  }

  /** What an operation of the manager does to the reference machine. */
  ghost function EventsOf<S>(w: World<S>, s: State<S>, op: Op<S>): seq<Event<S>>
    requires Ranked(s.graph)
  {
    match op
    case DoSnapshot(luck) => if NewId(w, s, luck).Some? then [Save] else []
    case DoStep(luck, launch) =>
      if NewId(w, s, luck).None? then []
      else if TakesPhysical(w, s, luck) && !launch.ok then [Save, Broke(launch.left)]
      else [Save]
    case DoRestore(id, launch) =>
      if Restores(s, id, launch) then [Back(Rank(s.graph.order, id))]
      else if id in s.graph.nodes then [Broke(launch.left)]
      else []
    case DoCmd(cmd) => [Do(cmd)]
  }

  /** The operation takes a snapshot. */
  predicate Makes<S>(w: World<S>, s: State<S>, op: Op<S>) {
    (op.DoSnapshot? || op.DoStep?) && NewId(w, s, op.luck).Some?
  }

  /** If the operation takes a snapshot of the kind, it takes it in a sound state. */
  ghost predicate SoundSnapshot<S>(w: World<S>, s: State<S>, op: Op<S>, physical: bool) {
    Makes(w, s, op) && TakesPhysical(w, s, op.luck) == physical ==> Sound(w, s)
  }

  // ---------- one operation ----------

  lemma {:induction false} LinksKept<S>(s: State<S>, t: State<S>, r: Ref<S>, u: Ref<S>, k: nat)
    requires Shaped(s) && Shaped(t) && Preserves(s.graph, t.graph) && Mirrors(s, r)
    requires |u.copies| == |t.graph.order| && r.copies <= u.copies && k < |r.copies|
    ensures SameLinks(t, u, k)
  {
    hide NoDup, RegistryMatches, ListsItsChildren, ParentEarlier;
    assert SameLinks(s, r, k);
    var id := s.graph.order[k];
    assert t.graph.order[k] == id && u.copies[k] == r.copies[k];
    var p := r.copies[k].parent;
    if p.Some? {
      assert t.graph.order[p.value] == s.graph.order[p.value];
    }
  }

  lemma {:induction false} NewLinks<S>(w: World<S>, s: State<S>, luck: Luck, r: Ref<S>)
    requires Shaped(s) && Fresh(w, s, luck) && Mirrors(s, r) && NewId(w, s, luck).Some?
    ensures Shaped(Snapshot(w, s, luck))
    ensures |RefNext(w, r, Save).copies| == |Snapshot(w, s, luck).graph.order|
    ensures SameLinks(Snapshot(w, s, luck), RefNext(w, r, Save), |r.copies|)
  {
    hide StateOf, RegistryMatches, NoDup, Keyed, Attach;
    SnapshotShaped(w, s, luck);
    SnapshotGraph(w, s, luck);
  }

  lemma {:induction false} SaveMirrors<S>(w: World<S>, s: State<S>, luck: Luck, r: Ref<S>)
    requires Shaped(s) && Fresh(w, s, luck) && Mirrors(s, r) && NewId(w, s, luck).Some?
    ensures Shaped(Snapshot(w, s, luck)) && Mirrors(Snapshot(w, s, luck), RefNext(w, r, Save))
  {
    hide StateOf, RegistryMatches, Tree, Attach, SameLinks, Fresh, NewNode;
    var t, u := Snapshot(w, s, luck), RefNext(w, r, Save);
    SnapshotShaped(w, s, luck);
    SnapshotGraph(w, s, luck);
    NewLinks(w, s, luck, r);
    forall k | 0 <= k < |u.copies| ensures SameLinks(t, u, k) {
      if k < |r.copies| { LinksKept(s, t, r, u, k); }
    }
  }

  lemma {:induction false} SameGraphMirrors<S>(s: State<S>, t: State<S>, r: Ref<S>, u: Ref<S>)
    requires Shaped(s) && Shaped(t) && t.graph == s.graph && Mirrors(s, r)
    requires u.copies == r.copies && u.last < |u.copies| && t.last == Some(t.graph.order[u.last])
    requires u.pending == t.log
    ensures Mirrors(t, u)
  {
    hide NoDup, RegistryMatches, Tree;
    forall k | 0 <= k < |u.copies| ensures SameLinks(t, u, k) {
      assert SameLinks(s, r, k);
    }
  }

  /** The node that an operation makes, if it makes one, and the copy made for it. */
  ghost predicate Extends<S>(w: World<S>, s: State<S>, op: Op<S>, t: State<S>, r: Ref<S>, u: Ref<S>)
    requires Shaped(s) && Shaped(t) && |r.copies| == |s.graph.order| && |u.copies| == |t.graph.order|
  {
    && Keeps(w, s, t)
    && u.copies == r.copies + (if Makes(w, s, op) then [Copy(r.live, Some(r.last), r.pending)] else [])
    && (Makes(w, s, op) ==>
          StateOf(w, t, t.graph.order[|r.copies|])
            == if TakesPhysical(w, s, op.luck) then s.live else Expected(w, s))
  }

  lemma {:induction false} SnapshotExtends<S>(w: World<S>, s: State<S>, luck: Luck, r: Ref<S>)
    requires Shaped(s) && Fresh(w, s, luck) && Mirrors(s, r)
    ensures
      var t := Snapshot(w, s, luck); var u := RefRun(w, r, EventsOf(w, s, DoSnapshot(luck)));
      && Shaped(t) && Mirrors(t, u) && Extends(w, s, DoSnapshot(luck), t, r, u)
      && u.live == r.live && t.live == s.live
  {
    hide StateOf, Expected, RegistryMatches, Tree, Attach, SameLinks, Fresh, NewNode, Keeps;
    ShapedIsRanked(s);
    SnapshotKeepsAll(w, s, luck);
    if NewId(w, s, luck).Some? {
      SaveMirrors(w, s, luck, r);
      SnapshotCaptures(w, s, luck);
      SnapshotGraph(w, s, luck);
      RefRunOne(w, r, Save);
    }
  }

  lemma {:induction false} StepExtends<S>(w: World<S>, s: State<S>, luck: Luck, launch: Launch<S>, r: Ref<S>)
    requires Shaped(s) && Fresh(w, s, luck) && Mirrors(s, r)
    ensures
      var op := DoStep(luck, launch);
      var t := Next(w, s, op); var u := RefRun(w, r, EventsOf(w, s, op));
      && Shaped(t) && Mirrors(t, u) && Extends(w, s, op, t, r, u) && (r.live == s.live ==> u.live == t.live)
  {
    hide StateOf, Expected, Shaped, Tree, Ranked, Snapshot, Mirrors, Fresh, Keeps, RefNext;
    ShapedIsRanked(s);
    SnapshotExtends(w, s, luck, r);
    StepEffect(w, s, luck, launch);
    var op := DoStep(luck, launch);
    var m, v := Snapshot(w, s, luck), RefRun(w, r, EventsOf(w, s, DoSnapshot(luck)));
    var t, u := Next(w, s, op), RefRun(w, r, EventsOf(w, s, op));
    StepEvents(w, s, luck, launch, r);
    if NewId(w, s, luck).Some? {
      CreateEnvEffect(w, m, NewId(w, s, luck).value, launch);
      MirrorsPositions(m, v);
      SameGraphMirrors(m, t, v, u);
      KeepsOne(w, m, t, m.graph.order[|r.copies|]);
    }
  }

  lemma {:induction false} StepEvents<S>(w: World<S>, s: State<S>, luck: Luck, launch: Launch<S>, r: Ref<S>)
    requires Ranked(s.graph)
    ensures
      var v := RefRun(w, r, EventsOf(w, s, DoSnapshot(luck)));
      var u := RefRun(w, r, EventsOf(w, s, DoStep(luck, launch)));
      u == if NewId(w, s, luck).Some? && TakesPhysical(w, s, luck) && !launch.ok then v.(live := launch.left) else v
  {
    RefRunOne(w, r, Save);
    RefRunTwo(w, r, Save, Broke(launch.left));
  }

  lemma MirrorsPositions<S>(s: State<S>, r: Ref<S>)
    requires Shaped(s) && Mirrors(s, r)
    ensures |r.copies| == |s.graph.order| && WellRanked(r)
    ensures s.last == Some(s.graph.order[r.last]) && r.pending == s.log
    ensures forall k :: 0 <= k < |s.graph.order| ==> s.graph.order[k] in s.graph.nodes
  {
    hide SameLinks, Tree, RegistryMatches;
    forall k | 0 <= k < |r.copies| && r.copies[k].parent.Some? ensures r.copies[k].parent.value < k {
      LinkIsEarlier(s, r, k);
    }
    ShapedIsRanked(s);
  }

  lemma LinkIsEarlier<S>(s: State<S>, r: Ref<S>, k: nat)
    requires Shaped(s) && Mirrors(s, r) && k < |r.copies| && r.copies[k].parent.Some?
    ensures r.copies[k].parent.value < k
  {
    hide Tree, RegistryMatches;
    assert SameLinks(s, r, k);
  }

  lemma {:induction false} RestoreExtends<S>(w: World<S>, s: State<S>, id: Id, launch: Launch<S>, r: Ref<S>)
    requires Shaped(s) && Mirrors(s, r)
    ensures
      var op := DoRestore(id, launch);
      var t := Restore(w, s, id, launch); var u := RefRun(w, r, EventsOf(w, s, op));
      && Shaped(t) && Mirrors(t, u) && Extends(w, s, op, t, r, u)
      && (r.live == s.live && HoldsCopies(w, s, r) ==> u.live == t.live)
  {
    hide StateOf, Expected, Tree, RegistryMatches, Keeps, Restore, Restores, NoDup;
    ShapedIsRanked(s);
    RestoreSoundIff(w, s, id, launch);
    RestoreEffect(w, s, id, launch);
    var e := if Restores(s, id, launch) then Back(Rank(s.graph.order, id)) else Broke(launch.left);
    RefRunOne(w, r, e);
    SameGraphMirrors(s, Restore(w, s, id, launch), r, if id in s.graph.nodes then RefNext(w, r, e) else r);
    if Restores(s, id, launch) && HoldsCopies(w, s, r) {
      assert HoldsCopy(w, s, r, Rank(s.graph.order, id));
    }
  }

  /** Whatever happens, tree, position and log are those of the reference
      machine, and the copies change as the nodes do. */
  lemma {:induction false} NextExtends<S>(w: World<S>, s: State<S>, op: Op<S>, r: Ref<S>)
    requires Shaped(s) && FreshOp(w, s, op) && Mirrors(s, r)
    ensures
      var t := Next(w, s, op); var u := RefRun(w, r, EventsOf(w, s, op));
      && Shaped(t) && Mirrors(t, u) && Extends(w, s, op, t, r, u)
      && (r.live == s.live && HoldsCopies(w, s, r) ==> u.live == t.live)
  {
    hide StateOf, Expected, Tree, RegistryMatches, Keeps, Snapshot, Restore, Restores, Fresh, HoldsCopies, SameLinks;
    ShapedIsRanked(s);
    match op
    case DoSnapshot(luck) => SnapshotExtends(w, s, luck, r);
    case DoStep(luck, launch) => StepExtends(w, s, luck, launch, r);
    case DoRestore(id, launch) => RestoreExtends(w, s, id, launch, r);
    case DoCmd(cmd) =>
      ExecKeeps(w, s, cmd);
      RefRunOne(w, r, Do(cmd));
      SameGraphMirrors(s, Next(w, s, op), r, RefNext(w, r, Do(cmd)));
  }

  /** Old nodes go on holding their copies, or not holding them. */
  lemma {:induction false} CopyKept<S>(w: World<S>, s: State<S>, t: State<S>, r: Ref<S>, u: Ref<S>, k: nat)
    requires Shaped(s) && Shaped(t) && Keeps(w, s, t)
    requires |r.copies| == |s.graph.order| && |u.copies| == |t.graph.order| && r.copies <= u.copies && k < |r.copies|
    ensures HoldsCopy(w, t, u, k) <==> HoldsCopy(w, s, r, k)
    ensures t.graph.order[k] == s.graph.order[k] && t.graph.order[k] in t.graph.nodes
    ensures StateOf(w, t, t.graph.order[k]) == StateOf(w, s, s.graph.order[k])
  {
    hide StateOf, Tree, RegistryMatches;
    ShapedIsRanked(s);
    KeepsOne(w, s, t, s.graph.order[k]);
    assert t.graph.order[k] == s.graph.order[k] && u.copies[k] == r.copies[k];
  }

  /** One operation of the manager, under any policy and with any failed start,
      is the steps of the reference machine that it stands for, exactly when a
      virtual snapshot it takes is taken in a sound state. */
  lemma {:induction false} NextSimulates<S>(w: World<S>, s: State<S>, op: Op<S>, r: Ref<S>)
    requires Shaped(s) && FreshOp(w, s, op) && Refines(w, s, r)
    ensures
      var t := Next(w, s, op); var u := RefRun(w, r, EventsOf(w, s, op));
      && Shaped(t) && Mirrors(t, u) && u.live == t.live
      && (Refines(w, t, u) <==> SoundSnapshot(w, s, op, false))
  {
    hide StateOf, Expected, Shaped, Tree, Ranked, Next, EventsOf, SameLinks, FreshOp, RefRun, Makes, TakesPhysical;
    ShapedIsRanked(s);
    NextExtends(w, s, op, r);
    var t, u := Next(w, s, op), RefRun(w, r, EventsOf(w, s, op));
    forall k | 0 <= k < |r.copies| ensures HoldsCopy(w, t, u, k) {
      CopyKept(w, s, t, r, u, k);
      assert HoldsCopy(w, s, r, k);
    }
    if Makes(w, s, op) {
      assert HoldsCopy(w, t, u, |r.copies|) <==> SoundSnapshot(w, s, op, false);
    }
  }

  // ---------- whole runs ----------

  ghost function Events<S>(w: World<S>, s: State<S>, ops: seq<Op<S>>): seq<Event<S>>
    requires Shaped(s) && FreshRun(w, s, ops)
    decreases |ops|
  {
    if ops == [] then [] else
      NextShaped(w, s, ops[0]);
      EventsOf(w, s, ops[0]) + Events(w, Next(w, s, ops[0]), ops[1..])
  }

  /** The triples that the manager's user commands return along a run. */
  ghost function Replies<S>(w: World<S>, s: State<S>, ops: seq<Op<S>>): seq<Reply>
    requires Shaped(s) && FreshRun(w, s, ops)
    decreases |ops|
  {
    if ops == [] then [] else
      NextShaped(w, s, ops[0]);
      (if ops[0].DoCmd? then [ReplyOf(w.run(s.live, ops[0].cmd))] else [])
      + Replies(w, Next(w, s, ops[0]), ops[1..])
  }

  /** Every snapshot of the kind along the run is taken in a sound state. */
  ghost predicate SoundSnapshots<S>(w: World<S>, s: State<S>, ops: seq<Op<S>>, physical: bool)
    requires Shaped(s) && FreshRun(w, s, ops)
    decreases |ops|
  {
    ops == [] ||
    (SoundSnapshot(w, s, ops[0], physical)
     && (NextShaped(w, s, ops[0]); SoundSnapshots(w, Next(w, s, ops[0]), ops[1..], physical)))
  }

  /** In a legal run every state is sound, so every snapshot is taken in one. */
  lemma {:induction false} LegalRunsSnapshotSoundly<S>(w: World<S>, s: State<S>, ops: seq<Op<S>>, physical: bool)
    requires Sound(w, s) && LegalRun(w, s, ops)
    ensures SoundSnapshots(w, s, ops, physical)
    decreases |ops|
  {
    hide StateOf, Expected, NoDup, Keyed, RegistryMatches, Next, Fresh, Makes, TakesPhysical;
    if ops != [] {
      NextSound(w, s, ops[0]);
      LegalRunsSnapshotSoundly(w, Next(w, s, ops[0]), ops[1..], physical);
    }
  }

  lemma {:induction false} RunHead<S>(w: World<S>, s: State<S>, ops: seq<Op<S>>, r: Ref<S>)
    requires Shaped(s) && FreshRun(w, s, ops) && ops != []
    ensures
      var t := Next(w, s, ops[0]);
      && Shaped(t) && FreshRun(w, t, ops[1..]) && FreshOp(w, s, ops[0])
      && Run(w, s, ops) == Run(w, t, ops[1..])
      && RefRun(w, r, Events(w, s, ops)) == RefRun(w, RefRun(w, r, EventsOf(w, s, ops[0])), Events(w, t, ops[1..]))
  {
    hide StateOf, Expected, NoDup, Keyed, RegistryMatches, Next, FreshOp, RefRun;
    NextShaped(w, s, ops[0]);
    RefRunAppend(w, r, EventsOf(w, s, ops[0]), Events(w, Next(w, s, ops[0]), ops[1..]));
  }

  lemma {:induction false} RunMirrors<S>(w: World<S>, s: State<S>, ops: seq<Op<S>>, r: Ref<S>)
    requires Shaped(s) && FreshRun(w, s, ops) && Mirrors(s, r)
    ensures Mirrors(Run(w, s, ops), RefRun(w, r, Events(w, s, ops)))
    decreases |ops|
  {
    hide Shaped, Mirrors, Next, EventsOf, FreshOp;
    if ops != [] {
      RunHead(w, s, ops, r);
      ShapedIsRanked(s);
      NextExtends(w, s, ops[0], r);
      RunMirrors(w, Next(w, s, ops[0]), ops[1..], RefRun(w, r, EventsOf(w, s, ops[0])));
    }
  }

  /** A node that does not hold its copy never will. */
  lemma {:induction false} MismatchStays<S>(w: World<S>, s: State<S>, ops: seq<Op<S>>, r: Ref<S>)
    requires Shaped(s) && FreshRun(w, s, ops) && Mirrors(s, r) && !HoldsCopies(w, s, r)
    ensures !Refines(w, Run(w, s, ops), RefRun(w, r, Events(w, s, ops)))
  {
    hide StateOf, Shaped, SameLinks, Run, RefRun, FreshRun, Keeps;
    var t, u := Run(w, s, ops), RefRun(w, r, Events(w, s, ops));
    RunMirrors(w, s, ops, r);
    RunKeeps(w, s, ops);
    var k :| 0 <= k < |r.copies| && !HoldsCopy(w, s, r, k);
    CopyKept(w, s, t, r, u, k);
  }

  lemma {:induction false} RepliesOfEvents<S>(w: World<S>, s: State<S>, op: Op<S>, r: Ref<S>)
    requires Ranked(s.graph) && r.live == s.live
    ensures RefReplies(w, r, EventsOf(w, s, op)) == if op.DoCmd? then [ReplyOf(w.run(s.live, op.cmd))] else []
  {
    hide ReplyOf, NewId;
    match op
    case DoSnapshot(luck) => RefRunOne(w, r, Save);
    case DoStep(luck, launch) =>
      RefRunOne(w, r, Save);
      RefRunTwo(w, r, Save, Broke(launch.left));
    case DoRestore(id, launch) =>
      if Restores(s, id, launch) { RefRunOne(w, r, Back(Rank(s.graph.order, id))); }
      RefRunOne(w, r, Broke(launch.left));
    case DoCmd(cmd) => RefRunOne(w, r, Do(cmd));
  }

  /** A fresh run of the manager, under any policy and with any failed starts, is
      a run of the reference machine with the same live states, nodes and
      replies, exactly when every virtual snapshot is taken in a sound state. */
  lemma {:induction false} RunRefines<S>(w: World<S>, s: State<S>, ops: seq<Op<S>>, r: Ref<S>)
    requires Shaped(s) && FreshRun(w, s, ops) && Refines(w, s, r)
    ensures Refines(w, Run(w, s, ops), RefRun(w, r, Events(w, s, ops))) <==> SoundSnapshots(w, s, ops, false)
    ensures SoundSnapshots(w, s, ops, false) ==> Replies(w, s, ops) == RefReplies(w, r, Events(w, s, ops))
    decreases |ops|
  {
    hide StateOf, Shaped, Mirrors, HoldsCopies, Next, EventsOf, FreshOp, SoundSnapshot, ReplyOf, RefRun;
    if ops == [] {
      NoEvents(w, r);
    } else {
      RunHead(w, s, ops, r);
      ShapedIsRanked(s);
      NextSimulates(w, s, ops[0], r);
      var t, u := Next(w, s, ops[0]), RefRun(w, r, EventsOf(w, s, ops[0]));
      if SoundSnapshot(w, s, ops[0], false) {
        RunRefines(w, t, ops[1..], u);
        RepliesOfEvents(w, s, ops[0], r);
        RefRunAppend(w, r, EventsOf(w, s, ops[0]), Events(w, t, ops[1..]));
      } else {
        MismatchStays(w, t, ops[1..], u);
      }
    }
  }

  /** The triple a command's outcome is reported by: the return code, the output
      and the error text as they came, or -1, no output and the exception's text. */
  ghost predicate Reports<S>(reply: Reply, o: Outcome<S>) {
    if o.raised then reply.rc == -1 && reply.out == "" && reply.err == o.err
    else reply.rc == o.rc && reply.out == o.out && reply.err == o.err
  }

  /** How many of the events are commands. */
  function Dos<S>(es: seq<Event<S>>): nat {
    if es == [] then 0 else (if es[0].Do? then 1 else 0) + Dos(es[1..])
  }

  /** Each command of the reference machine is answered once, in order, with the
      outcome it has in the live state where it runs. */
  lemma {:induction false} ReplyOfCommand<S>(w: World<S>, r: Ref<S>, es: seq<Event<S>>, i: nat)
    requires i < |es| && es[i].Do?
    ensures |RefReplies(w, r, es)| == Dos(es) && Dos(es[..i]) < Dos(es)
    ensures Reports(RefReplies(w, r, es)[Dos(es[..i])], w.run(RefRun(w, r, es[..i]).live, es[i].cmd))
    decreases |es|
  {
    hide RefNext;
    RepliesCounted(w, RefNext(w, r, es[0]), es[1..]);
    if i > 0 {
      ReplyOfCommand(w, RefNext(w, r, es[0]), es[1..], i - 1);
      assert es[..i][1..] == es[1..][..i - 1] && es[..i][0] == es[0];
    }
  }

  lemma {:induction false} RepliesCounted<S>(w: World<S>, r: Ref<S>, es: seq<Event<S>>)
    ensures |RefReplies(w, r, es)| == Dos(es)
    decreases |es|
  {
    hide RefNext, ReplyOf;
    if es != [] { RepliesCounted(w, RefNext(w, r, es[0]), es[1..]); }
  }

  function Cmds<S>(ops: seq<Op<S>>): nat {
    if ops == [] then 0 else (if ops[0].DoCmd? then 1 else 0) + Cmds(ops[1..])
  }

  /** And so for the manager, in any fresh run, sound or not: one reply per user
      command, in order, with the outcome in the live environment of that moment;
      replayed commands are not answered. */
  lemma {:induction false} ReplyOfUserCommand<S>(w: World<S>, s: State<S>, ops: seq<Op<S>>, i: nat)
    requires Shaped(s) && FreshRun(w, s, ops) && i < |ops| && ops[i].DoCmd?
    ensures FreshRun(w, s, ops[..i])
    ensures |Replies(w, s, ops)| == Cmds(ops) && Cmds(ops[..i]) < Cmds(ops)
    ensures Reports(Replies(w, s, ops)[Cmds(ops[..i])], w.run(Run(w, s, ops[..i]).live, ops[i].cmd))
    decreases |ops|
  {
    hide Shaped, Next, FreshOp, Ranked, Run, FreshRun, Replies, ReplyOf, Reports;
    RunUncons(w, s, ops);
    RunSplit(w, s, ops, i);
    RepliesHead(w, s, ops);
    var t := Next(w, s, ops[0]);
    AnswersCounted(w, t, ops[1..]);
    if i == 0 {
      RunOfNothing(w, s);
      assert ops[..0] == [];
    } else {
      ReplyOfUserCommand(w, t, ops[1..], i - 1);
      assert ops[..i][1..] == ops[1..][..i - 1] && ops[..i][0] == ops[0];
      RunUncons(w, s, ops[..i]);
    }
  }

  lemma {:induction false} RepliesHead<S>(w: World<S>, s: State<S>, ops: seq<Op<S>>)
    requires Shaped(s) && FreshRun(w, s, ops) && ops != []
    ensures Ranked(s.graph) && Shaped(Next(w, s, ops[0])) && FreshRun(w, Next(w, s, ops[0]), ops[1..])
    ensures var rest := Replies(w, Next(w, s, ops[0]), ops[1..]);
      if ops[0].DoCmd?
      then
        |Replies(w, s, ops)| == 1 + |rest| && Replies(w, s, ops)[1..] == rest
        && Reports(Replies(w, s, ops)[0], w.run(s.live, ops[0].cmd))
      else Replies(w, s, ops) == rest
  {
    hide Shaped, Next, FreshOp, Ranked;
    RunUncons(w, s, ops);
  }

  lemma {:induction false} AnswersCounted<S>(w: World<S>, s: State<S>, ops: seq<Op<S>>)
    requires Shaped(s) && FreshRun(w, s, ops)
    ensures |Replies(w, s, ops)| == Cmds(ops)
    decreases |ops|
  {
    hide Shaped, Next, FreshOp, ReplyOf;
    if ops != [] {
      RunUncons(w, s, ops);
      AnswersCounted(w, Next(w, s, ops[0]), ops[1..]);
    }
  }

  lemma NoEvents<S>(w: World<S>, r: Ref<S>)
    ensures RefRun(w, r, []) == r && RefReplies(w, r, []) == []
  {
  }

  // ---------- decider transparency ----------

  /** What the user asks for, before anything is known about the policy: a
      restore names a snapshot by its creation rank. */
  ghost function Asked<S>(s: State<S>, op: Op<S>): seq<Event<S>>
    requires Ranked(s.graph)
  {
    match op
    case DoSnapshot(_) => [Save]
    case DoStep(_, _) => [Save]
    case DoRestore(id, _) => if id in s.graph.nodes then [Back(Rank(s.graph.order, id))] else []
    case DoCmd(cmd) => [Do(cmd)]
  }

  ghost function AskedRun<S>(w: World<S>, s: State<S>, ops: seq<Op<S>>): seq<Event<S>>
    requires Shaped(s) && FreshRun(w, s, ops)
    decreases |ops|
  {
    if ops == [] then [] else
      NextShaped(w, s, ops[0]);
      Asked(s, ops[0]) + AskedRun(w, Next(w, s, ops[0]), ops[1..])
  }

  /** Every backend call of the operation would succeed. */
  predicate Smooth<S>(op: Op<S>) {
    match op
    case DoSnapshot(luck) => luck.commit.Some?
    case DoRestore(_, launch) => launch.ok
    case DoStep(luck, launch) => luck.commit.Some? && launch.ok
    case DoCmd(_) => true
  }

  /** Without backend failures a run does what was asked, and it is legal. */
  lemma {:induction false} SmoothRunsDoAsAsked<S>(w: World<S>, s: State<S>, ops: seq<Op<S>>)
    requires Shaped(s) && FreshRun(w, s, ops)
    requires forall i :: 0 <= i < |ops| ==> Smooth(ops[i])
    ensures Events(w, s, ops) == AskedRun(w, s, ops) && LegalRun(w, s, ops)
    decreases |ops|
  {
    hide StateOf, Expected, Keeps, NoDup, Keyed, RegistryMatches, Restore, Exec, CreateEnv, Snapshot, Fresh;
    if ops != [] {
      assert Smooth(ops[0]);
      NextShaped(w, s, ops[0]);
      if ops[0].DoRestore? {
        RestoreEffect(w, s, ops[0].id, ops[0].launch);
      }
      SmoothRunsDoAsAsked(w, Next(w, s, ops[0]), ops[1..]);
    }
  }

  /** Two managers look alike: the same live state, pending log, position and
      tree shape, and corresponding nodes stand for the same states. Ids, kinds,
      counters and `current` may differ. */
  ghost predicate LooksLike<S>(w1: World<S>, s1: State<S>, w2: World<S>, s2: State<S>)
    requires Shaped(s1) && Shaped(s2)
  {
    && s1.live == s2.live && s1.log == s2.log
    && |s1.graph.order| == |s2.graph.order|
    && Rank(s1.graph.order, s1.last.value) == Rank(s2.graph.order, s2.last.value)
    && forall k {:trigger SameNode(w1, s1, w2, s2, k)} :: 0 <= k < |s1.graph.order| ==> SameNode(w1, s1, w2, s2, k)
  }

  ghost predicate SameNode<S>(w1: World<S>, s1: State<S>, w2: World<S>, s2: State<S>, k: nat)
    requires Shaped(s1) && Shaped(s2) && k < |s1.graph.order| == |s2.graph.order|
  {
    var a, b := s1.graph.order[k], s2.graph.order[k];
    assert ParentEarlier(s1.graph, a) && ParentEarlier(s2.graph, b);
    var p, q := s1.graph.nodes[a].parent, s2.graph.nodes[b].parent;
    && StateOf(w1, s1, a) == StateOf(w2, s2, b)
    && (p.None? <==> q.None?)
    && (p.Some? ==> Rank(s1.graph.order, p.value) == Rank(s2.graph.order, q.value))
  }

  lemma {:induction false} SameRefSameLook<S>(w1: World<S>, s1: State<S>, w2: World<S>, s2: State<S>, r: Ref<S>)
    requires Shaped(s1) && Shaped(s2) && Refines(w1, s1, r) && Refines(w2, s2, r)
    ensures LooksLike(w1, s1, w2, s2)
  {
    hide StateOf, RegistryMatches, ListsItsChildren;
    forall k | 0 <= k < |s1.graph.order| ensures SameNode(w1, s1, w2, s2, k) {
      assert SameLinks(s1, r, k) && SameLinks(s2, r, k);
      assert HoldsCopy(w1, s1, r, k) && HoldsCopy(w2, s2, r, k);
    }
  }

  /** Two managers over the same environment to which the same happens, failed
      starts included, look alike at the end and gave the same replies, if each
      took its virtual snapshots in sound states. */
  lemma {:induction false} SameEventsLookAlike<S>(
    w1: World<S>, s1: State<S>, ops1: seq<Op<S>>, w2: World<S>, s2: State<S>, ops2: seq<Op<S>>, r: Ref<S>)
    requires w1.run == w2.run
    requires Shaped(s1) && FreshRun(w1, s1, ops1) && Refines(w1, s1, r) && SoundSnapshots(w1, s1, ops1, false)
    requires Shaped(s2) && FreshRun(w2, s2, ops2) && Refines(w2, s2, r) && SoundSnapshots(w2, s2, ops2, false)
    requires Events(w1, s1, ops1) == Events(w2, s2, ops2)
    ensures LooksLike(w1, Run(w1, s1, ops1), w2, Run(w2, s2, ops2))
    ensures Replies(w1, s1, ops1) == Replies(w2, s2, ops2)
  {
    hide Shaped, Refines, LooksLike, Run, FreshRun, Events, SoundSnapshots, RefRun, RefReplies;
    var es := Events(w1, s1, ops1);
    RunRefines(w1, s1, ops1, r);
    RunRefines(w2, s2, ops2, r);
    SameRun(w1, w2, r, es);
    SameRefSameLook(w1, Run(w1, s1, ops1), w2, Run(w2, s2, ops2), RefRun(w1, r, es));
  }

  /** Decider transparency. Two managers over the same environment but with
      different policies, clocks and ids, driven by the same user requests with
      no backend failure, look alike at the end and gave the same replies. */
  lemma {:induction false} DeciderTransparency<S>(
    w1: World<S>, s1: State<S>, ops1: seq<Op<S>>, w2: World<S>, s2: State<S>, ops2: seq<Op<S>>, r: Ref<S>)
    requires w1.run == w2.run
    requires Sound(w1, s1) && FreshRun(w1, s1, ops1) && Refines(w1, s1, r)
    requires Sound(w2, s2) && FreshRun(w2, s2, ops2) && Refines(w2, s2, r)
    requires forall i :: 0 <= i < |ops1| ==> Smooth(ops1[i])
    requires forall i :: 0 <= i < |ops2| ==> Smooth(ops2[i])
    requires AskedRun(w1, s1, ops1) == AskedRun(w2, s2, ops2)
    ensures LooksLike(w1, Run(w1, s1, ops1), w2, Run(w2, s2, ops2))
    ensures Replies(w1, s1, ops1) == Replies(w2, s2, ops2)
  {
    hide Shaped, Refines, LooksLike, Run, FreshRun, Events, SoundSnapshots, Smooth;
    SmoothRunsDoAsAsked(w1, s1, ops1);
    SmoothRunsDoAsAsked(w2, s2, ops2);
    LegalRunsSnapshotSoundly(w1, s1, ops1, false);
    LegalRunsSnapshotSoundly(w2, s2, ops2, false);
    SameEventsLookAlike(w1, s1, ops1, w2, s2, ops2, r);
  }

  lemma {:induction false} SameRun<S>(w1: World<S>, w2: World<S>, r: Ref<S>, es: seq<Event<S>>)
    requires w1.run == w2.run
    ensures RefRun(w1, r, es) == RefRun(w2, r, es) && RefReplies(w1, r, es) == RefReplies(w2, r, es)
    decreases |es|
  {
    if es != [] {
      SameRun(w1, w2, RefNext(w1, r, es[0]), es[1..]);
    }
  }

  // ---------- end to end ----------

  /** All user commands on the branch from the root to copy `k`. */
  function Branch<S>(copies: seq<Copy<S>>, k: nat): seq<Command>
    requires k < |copies|
    requires forall i :: 0 <= i < |copies| && copies[i].parent.Some? ==> copies[i].parent.value < i
  {
    if copies[k].parent.None? then []
    else Branch(copies, copies[k].parent.value) + copies[k].commands
  }

  lemma {:induction false} BranchKept<S>(a: seq<Copy<S>>, b: seq<Copy<S>>, k: nat)
    requires k < |a| && a <= b
    requires forall i :: 0 <= i < |b| && b[i].parent.Some? ==> b[i].parent.value < i
    ensures forall i :: 0 <= i < |a| && a[i].parent.Some? ==> a[i].parent.value < i
    ensures Branch(b, k) == Branch(a, k)
  {
    assert forall i :: 0 <= i < |a| ==> a[i] == b[i];
    if a[k].parent.Some? {
      BranchKept(a, b, a[k].parent.value);
    }
  }

  /** Node `k` stands for what the user's own commands on its branch make of the
      root: nothing is lost and nothing is counted twice. */
  ghost predicate RootedAt<S>(w: World<S>, root: S, s: State<S>, r: Ref<S>, k: nat)
    requires Shaped(s) && |r.copies| == |s.graph.order| && WellRanked(r) && k < |r.copies|
  {
    StateOf(w, s, s.graph.order[k]) == RunAll(w, root, Branch(r.copies, k))
  }

  ghost predicate Rooted<S>(w: World<S>, root: S, s: State<S>, r: Ref<S>)
    requires Shaped(s) && |r.copies| == |s.graph.order| && WellRanked(r)
  {
    forall k {:trigger RootedAt(w, root, s, r, k)} :: 0 <= k < |r.copies| ==> RootedAt(w, root, s, r, k)
  }

  /** In a rooted state the expected environment is rooted too. */
  lemma {:induction false} ExpectedFromRoot<S>(w: World<S>, root: S, s: State<S>, r: Ref<S>)
    requires Shaped(s) && Mirrors(s, r) && WellRanked(r) && RootedAt(w, root, s, r, r.last)
    ensures Expected(w, s) == RunAll(w, root, Branch(r.copies, r.last) + s.log)
  {
    hide StateOf, Tree, RegistryMatches, RunAll, Branch, SameLinks;
    RunAllSplit(w, root, Branch(r.copies, r.last), s.log);
  }

  lemma {:induction false} RootKept<S>(w: World<S>, root: S, s: State<S>, t: State<S>, r: Ref<S>, u: Ref<S>, k: nat)
    requires Shaped(s) && Shaped(t) && Keeps(w, s, t) && WellRanked(r) && WellRanked(u)
    requires |r.copies| == |s.graph.order| && |u.copies| == |t.graph.order| && r.copies <= u.copies && k < |r.copies|
    ensures RootedAt(w, root, t, u, k) <==> RootedAt(w, root, s, r, k)
  {
    hide StateOf, Shaped, Keeps, RunAll, Branch;
    CopyKept(w, s, t, r, u, k);
    BranchKept(r.copies, u.copies, k);
  }

  /** One operation keeps every node rooted exactly when a physical snapshot it
      takes is taken in a sound state. */
  lemma {:induction false} NextRooted<S>(w: World<S>, root: S, s: State<S>, op: Op<S>, r: Ref<S>)
    requires Shaped(s) && FreshOp(w, s, op) && Mirrors(s, r) && WellRanked(r) && Rooted(w, root, s, r)
    ensures
      var t := Next(w, s, op); var u := RefRun(w, r, EventsOf(w, s, op));
      && Shaped(t) && Mirrors(t, u) && WellRanked(u)
      && (Rooted(w, root, t, u) <==> SoundSnapshot(w, s, op, true))
  {
    hide StateOf, Expected, Shaped, Mirrors, Tree, Ranked, Next, EventsOf, FreshOp, RefRun, Makes, TakesPhysical, Keeps;
    ShapedIsRanked(s);
    NextExtends(w, s, op, r);
    var t, u := Next(w, s, op), RefRun(w, r, EventsOf(w, s, op));
    MirrorsPositions(s, r);
    MirrorsPositions(t, u);
    forall k | 0 <= k < |r.copies| ensures RootedAt(w, root, t, u, k) {
      RootKept(w, root, s, t, r, u, k);
      assert RootedAt(w, root, s, r, k);
    }
    if Makes(w, s, op) {
      assert RootedAt(w, root, s, r, r.last);
      ExpectedFromRoot(w, root, s, r);
      BranchKept(r.copies, u.copies, r.last);
      assert RootedAt(w, root, t, u, |r.copies|) <==> SoundSnapshot(w, s, op, true);
    }
  }

  lemma {:induction false} UprootedStays<S>(w: World<S>, root: S, s: State<S>, ops: seq<Op<S>>, r: Ref<S>)
    requires Shaped(s) && FreshRun(w, s, ops) && Mirrors(s, r) && WellRanked(r) && !Rooted(w, root, s, r)
    ensures
      var t := Run(w, s, ops); var u := RefRun(w, r, Events(w, s, ops));
      Mirrors(t, u) && WellRanked(u) && !Rooted(w, root, t, u)
  {
    hide StateOf, Shaped, Mirrors, Run, RefRun, FreshRun, Keeps, RootedAt;
    var t, u := Run(w, s, ops), RefRun(w, r, Events(w, s, ops));
    RunMirrors(w, s, ops, r);
    RunKeeps(w, s, ops);
    MirrorsPositions(s, r);
    MirrorsPositions(t, u);
    var k :| 0 <= k < |r.copies| && !RootedAt(w, root, s, r, k);
    RootKept(w, root, s, t, r, u, k);
  }

  lemma {:induction false} RunRooted<S>(w: World<S>, root: S, s: State<S>, ops: seq<Op<S>>, r: Ref<S>)
    requires Shaped(s) && FreshRun(w, s, ops) && Mirrors(s, r) && WellRanked(r) && Rooted(w, root, s, r)
    ensures
      var t := Run(w, s, ops); var u := RefRun(w, r, Events(w, s, ops));
      Mirrors(t, u) && WellRanked(u) && (Rooted(w, root, t, u) <==> SoundSnapshots(w, s, ops, true))
    decreases |ops|
  {
    hide StateOf, Shaped, Mirrors, Next, EventsOf, FreshOp, SoundSnapshot, Rooted, RefRun, WellRanked;
    if ops == [] {
      NoEvents(w, r);
    } else {
      RunHead(w, s, ops, r);
      ShapedIsRanked(s);
      NextRooted(w, root, s, ops[0], r);
      var t, u := Next(w, s, ops[0]), RefRun(w, r, EventsOf(w, s, ops[0]));
      if SoundSnapshot(w, s, ops[0], true) {
        RunRooted(w, root, t, ops[1..], u);
      } else {
        UprootedStays(w, root, t, ops[1..], u);
      }
    }
  }

  /** The reference machine before anything happened: one copy, the base image. */
  function RefStart<S>(image: S, live: S): Ref<S> {
    Ref([Copy(image, None, [])], 0, [], live)
  }

  /** A freshly attached manager refines the fresh reference machine; it is sound
      exactly when the running container is in the state its base image holds. */
  lemma {:induction false} AttachedSoundIff<S>(w: World<S>, tag: Id, images: map<Image, S>, live: S)
    requires ImageName(w, tag) in images
    ensures
      var s := Attached(w, tag, images, live); var image := images[ImageName(w, tag)];
      && (Sound(w, s) <==> live == image)
      && Shaped(s) && Refines(w, s, RefStart(image, live)) && Rooted(w, image, s, RefStart(image, live))
  {
    hide StateOf, Expected, Shaped, Base;
    var s, r := Attached(w, tag, images, live), RefStart(images[ImageName(w, tag)], live);
    AttachedShaped(w, tag, images, live);
    assert SameLinks(s, r, 0) && HoldsCopy(w, s, r, 0);
    assert RunAll(w, images[ImageName(w, tag)], []) == images[ImageName(w, tag)];
    assert RootedAt(w, images[ImageName(w, tag)], s, r, 0);
  }

  /** A built container starts its environment from the base image, so its
      manager is sound whatever ran before. */
  lemma BuiltIsSound<S>(w: World<S>, tag: Id, images: map<Image, S>, running: S, launch: Launch<S>)
    requires ImageName(w, tag) in images && launch.ok
    ensures var s := Attached(w, tag, images, running); var t := s.(live := LiveAfter(s, BASE, launch));
      Sound(w, t) && t == Attached(w, tag, images, images[ImageName(w, tag)])
  {
    AttachedSoundIff(w, tag, images, images[ImageName(w, tag)]);
    assert ImageName(w, tag).name[|w.prefix|] == ':';
  }

  /** End to end: after any fresh run from an attached manager, with any failed
      starts, every node is what the user's own commands on its branch make of
      the base image, exactly when every physical snapshot was taken in a sound
      state; then so is the live state, with the pending log, exactly when the
      state at the end is sound. */
  lemma {:induction false} EndToEnd<S>(w: World<S>, tag: Id, images: map<Image, S>, live: S, ops: seq<Op<S>>)
    requires ImageName(w, tag) in images
    requires Shaped(Attached(w, tag, images, live)) && FreshRun(w, Attached(w, tag, images, live), ops)
    ensures
      var s := Attached(w, tag, images, live); var root := images[ImageName(w, tag)];
      var t := Run(w, s, ops); var r := RefRun(w, RefStart(root, live), Events(w, s, ops));
      && Mirrors(t, r) && WellRanked(r)
      && (Rooted(w, root, t, r) <==> SoundSnapshots(w, s, ops, true))
      && (Rooted(w, root, t, r) ==>
            (t.live == RunAll(w, root, Branch(r.copies, r.last) + t.log) <==> Sound(w, t)))
  {
    hide StateOf, Expected, Shaped, Mirrors, Attached, Run, RefRun, FreshRun, SoundSnapshots, RootedAt, Branch, RunAll;
    var s, root := Attached(w, tag, images, live), images[ImageName(w, tag)];
    AttachedSoundIff(w, tag, images, live);
    RunRooted(w, root, s, ops, RefStart(root, live));
    var t, r := Run(w, s, ops), RefRun(w, RefStart(root, live), Events(w, s, ops));
    MirrorsPositions(t, r);
    if Rooted(w, root, t, r) {
      assert RootedAt(w, root, t, r, r.last);
      ExpectedFromRoot(w, root, t, r);
    }
  }
}
