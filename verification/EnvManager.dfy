/** `EnvironmentManager` as the source writes it: an object whose methods
    update the graph, the log, the counter and the registry in place. Every
    method is tied to the state machine of `ManagerModel`. */
module EnvManager {
  import opened Prelude
  import opened SnapshotTree
  import opened Deciders
  import opened Benchmark
  import opened Decimal
  import opened ManagerModel
  import opened TreePrint
  import opened Text

  class SnapshotNode {
    const snapshotId: Id
    const parentId: Option<Id>
    const isVirtual: bool
    const replayCommands: seq<Command>
    var children: seq<Id>

    constructor (snapshotId: Id, parentId: Option<Id>, isVirtual: bool, replayCommands: seq<Command>)
      ensures View() == Node(snapshotId, parentId, [], isVirtual, replayCommands)
    {
      this.snapshotId := snapshotId;
      this.parentId := parentId;
      this.isVirtual := isVirtual;
      this.replayCommands := replayCommands;
      children := [];
    }

    ghost function View(): (n: Node)
      reads this
    {
      Node(snapshotId, parentId, children, isVirtual, replayCommands)
    }
  }

  /** The list reversed, as `list.reverse` leaves it. */
  function Reversed<T>(s: seq<T>): (r: seq<T>)
    ensures |r| == |s| && forall i :: 0 <= i < |s| ==> r[i] == s[|s| - 1 - i]
  {
    if s == [] then [] else Reversed(s[1..]) + [s[0]]
  }

  class EnvironmentManager<S> {
    const world: World<S>
    const stats: BenchmarkStats

    // snapshot_graph and its key order
    var nodes: map<Id, SnapshotNode>
    var order: seq<Id>

    var lastSnapshotId: Option<Id>
    var currentSnapshotId: Option<Id>
    var commandLog: seq<Command>
    var cumulativeExecTime: real
    var snapshots: map<Id, Image>
    var isCleanedUp: bool
    var tmpTreePrint: string

    // the environment that the manager steers
    var store: map<Image, S>
    var live: S

    /** What the node objects hold, as a value. */
    ghost var graph: Graph

    /** Each node object sits under its own id, so no two keys share one, and
        the objects together hold `graph`. */
    ghost predicate Valid()
      reads `nodes, `order, `graph, nodes.Values
    {
      && graph.order == order
      && graph.nodes.Keys == nodes.Keys
      && forall id :: id in nodes ==> nodes[id].snapshotId == id && nodes[id].View() == graph.nodes[id]
    }

    ghost function View(): State<S>
      reads this, stats
    {
      State(graph, lastSnapshotId, currentSnapshotId, commandLog, cumulativeExecTime,
            stats.View(), snapshots, store, live, isCleanedUp)
    }

    /** Attach to a running container whose base image has the given tag. */
    constructor (world: World<S>, tag: Id, images: map<Image, S>, running: S)
      ensures Valid() && View() == Attached(world, tag, images, running)
      ensures this.world == world && fresh(stats) && fresh(nodes.Values)
      ensures order == [Id("base")] && currentSnapshotId == lastSnapshotId == Some(Id("base"))
      ensures snapshots == map[Id("base") := Image(world.prefix + ":" + tag.text)] && store == images && live == running
      ensures commandLog == [] && cumulativeExecTime == 0.0 && stats.log == [] && !isCleanedUp
    {
      var root := new SnapshotNode(BASE, None, false, []);
      this.world := world;
      stats := new BenchmarkStats();
      nodes := map[BASE := root];
      order := [BASE];
      lastSnapshotId := Some(BASE);
      currentSnapshotId := Some(BASE);
      commandLog := [];
      cumulativeExecTime := 0.0;
      snapshots := map[BASE := ImageName(world, tag)];
      isCleanedUp := false;
      graph := Graph(map[BASE := Node(BASE, None, [], false, [])], [BASE]);
      tmpTreePrint := "";
      store := images;
      live := running;
    }

    // ---------- commands ----------

    method ExecCommand(command: Command) returns (reply: Reply)
      requires Valid()
      modifies this, stats
      ensures Valid() && nodes == old(nodes) && graph == old(graph) && tmpTreePrint == old(tmpTreePrint)
      ensures reply == ReplyOf(world.run(old(live), command))
      ensures var o := world.run(old(live), command);
        if o.raised then reply.rc == -1 && reply.out == "" && reply.err == o.err
        else reply.rc == o.rc && reply.out == o.out && reply.err == o.err
      ensures var at := old(currentSnapshotId);
        stats.log == old(stats.log) + [Entry(
          old(stats.sequenceCounter) + 1, EXEC,
          if at.None? || at.value.text == "" then None else at, world.run(old(live), command).elapsed)]
      ensures View() == Exec(world, old(View()), command)
    {
      hide Valid;
      var o := world.run(live, command);
      live := o.after;
      if o.raised {
        stats.AddEntry(EXEC, Truthy(currentSnapshotId), o.elapsed);
        commandLog := commandLog + [command];
        reply := Reply(-1, "", o.err);
      } else {
        cumulativeExecTime := cumulativeExecTime + o.elapsed;
        stats.AddEntry(EXEC, Truthy(currentSnapshotId), o.elapsed);
        commandLog := commandLog + [command];
        reply := Reply(o.rc, o.out, o.err);
      }
    }

    // ---------- snapshot ----------

    /** The backend commits the live environment as a new image. */
    method CoreSnapshot(commit: Option<(Id, Cost)>) returns (r: Option<(Id, Cost)>)
      requires Valid()
      modifies `snapshots, `store
      ensures r == commit
      ensures commit.None? ==> snapshots == old(snapshots) && store == old(store)
      ensures commit.Some? ==>
        && snapshots == old(snapshots)[commit.value.0 := ImageName(world, commit.value.0)]
        && store == old(store)[ImageName(world, commit.value.0) := live]
    {
      r := commit;
      if commit.Some? {
        var image := ImageName(world, commit.value.0);
        store := store[image := live];
        snapshots := snapshots[commit.value.0 := image];
      }
    }

    /** The physical branch of `snapshot`, up to the new node; null if the
        backend fails. */
    method NewPhysical(commit: Option<(Id, Cost)>, parentId: Option<Id>) returns (node: SnapshotNode?)
      requires Valid()
      modifies `snapshots, `store, `cumulativeExecTime, stats
      ensures node == null <==> commit.None?
      ensures node == null ==> View() == old(View())
      ensures node != null ==>
        && fresh(node) && node.View() == Node(commit.value.0, parentId, [], false, [])
        && View() == old(View()).(
             stats := Add(old(View()).stats, SNAPSHOT, Some(commit.value.0), commit.value.1), cum := 0.0,
             snapshots := old(snapshots)[commit.value.0 := ImageName(world, commit.value.0)],
             store := old(store)[ImageName(world, commit.value.0) := live])
    {
      var r := CoreSnapshot(commit);
      if r.None? {
        return null;
      }
      stats.AddEntry(SNAPSHOT, Some(r.value.0), r.value.1);
      node := new SnapshotNode(r.value.0, parentId, false, []);
      cumulativeExecTime := 0.0;
    }

    /** The end of `snapshot`, common to both kinds of node. */
    method MoveTo(node: SnapshotNode)
      requires Valid() && node !in nodes.Values
      modifies `nodes, `order, `graph, `commandLog, `lastSnapshotId, `isCleanedUp, nodes.Values, node
      ensures Valid()
      ensures forall i :: i in nodes ==> nodes[i] in old(nodes.Values) || nodes[i] == node
      ensures View() == old(View()).(
        graph := Attach(old(graph), old(node.View())), log := [], last := Some(node.snapshotId), cleanedUp := false)
    {
      hide Attach, Valid;
      AttachNode(node.snapshotId, node);
      commandLog := [];
      lastSnapshotId := Some(node.snapshotId);
      isCleanedUp := false;
    }

    method Snapshot(luck: Luck) returns (id: Option<Id>)
      requires Valid()
      modifies this, stats, nodes.Values
      ensures Valid() && tmpTreePrint == old(tmpTreePrint)
      ensures forall i :: i in nodes ==> nodes[i] in old(nodes.Values) || fresh(nodes[i])
      ensures id == NewId(world, old(View()), luck)
      ensures View() == ManagerModel.Snapshot(world, old(View()), luck)
    {
      hide Attach, VirtualId, NoDup, ImageName, Add;
      var parentId := Truthy(lastSnapshotId);
      var takePhysical := Decide(world.decider, cumulativeExecTime, luck.coin);
      var node: SnapshotNode?;
      if takePhysical {
        node := NewPhysical(luck.commit, parentId);
        if node == null {
          return None;
        }
      } else {
        node := new SnapshotNode(Id(VirtualId(luck.ms)), parentId, true, commandLog);
      }
      id := Some(node.snapshotId);
      MoveTo(node);
    }

    /** The graph update: a dictionary store, then an append to the children of
        the parent object, which may be the node just stored. */
    method AttachNode(id: Id, node: SnapshotNode)
      requires Valid() && node.snapshotId == id && node !in nodes.Values
      modifies `nodes, `order, `graph, nodes.Values, node
      ensures Valid()
      ensures forall i :: i in nodes ==> nodes[i] in old(nodes.Values) || nodes[i] == node
      ensures graph == Attach(old(graph), old(node.View()))
    {
      hide Valid;
      StoreNode(id, node);
      if node.parentId.Some? && node.parentId.value in nodes {
        AppendChild(node.parentId.value, id);
      }
    }

    method StoreNode(id: Id, node: SnapshotNode)
      requires Valid() && node.snapshotId == id && node !in nodes.Values
      modifies `nodes, `order, `graph
      ensures Valid() && nodes == old(nodes)[id := node]
      ensures graph.order == if id in old(graph).nodes then old(graph).order else old(graph).order + [id]
      ensures graph.nodes == old(graph).nodes[id := node.View()] && nodes.Keys == graph.nodes.Keys
    {
      order := if id in nodes then order else order + [id];
      nodes := nodes[id := node];
      graph := Graph(graph.nodes[id := node.View()], order);
    }

    method AppendChild(parentId: Id, id: Id)
      requires Valid() && parentId in nodes
      modifies `graph, nodes[parentId]
      ensures Valid()
      ensures var p := old(graph).nodes[parentId];
        graph == Graph(old(graph).nodes[parentId := p.(children := p.children + [id])], old(graph).order)
    {
      var parent := nodes[parentId];
      parent.children := parent.children + [id];
      graph := Graph(graph.nodes[parentId := parent.View()], graph.order);
    }

    // ---------- restore and create ----------

    method CoreCreateEnv(id: Id, launch: Launch<S>) returns (ok: bool, elapsed: Cost)
      modifies `live
      ensures ok == Launches(old(View()), id, launch) && (ok ==> elapsed == launch.elapsed)
      ensures live == LiveAfter(old(View()), id, launch)
    {
      elapsed := launch.elapsed;
      if id !in snapshots || snapshots[id].name == "" {
        return false, 0.0;
      }
      if launch.ok && snapshots[id] in store {
        live := store[snapshots[id]];
        ok := true;
      } else {
        live := launch.left;
        ok := false;
      }
    }

    method CreateEnvFromSnapshot(id: Id, launch: Launch<S>) returns (ok: bool)
      requires Valid()
      modifies this, stats
      ensures Valid() && nodes == old(nodes) && graph == old(graph) && tmpTreePrint == old(tmpTreePrint)
      ensures ok == Launches(old(View()), id, launch)
      ensures View() == CreateEnv(old(View()), id, launch)
    {
      hide Valid;
      var elapsed;
      ok, elapsed := CoreCreateEnv(id, launch);
      if ok {
        stats.AddEntry(CONTAINER, Some(id), elapsed);
        currentSnapshotId := Some(id);
        isCleanedUp := false;
      }
    }

    /** Walk up from a node, collecting the virtual nodes met, leaf first. */
    method WalkUp(id: Id) returns (chain: seq<SnapshotNode>, top: Option<SnapshotNode>)
      requires Valid() && Ranked(graph) && id in nodes
      ensures top.Some? <==> Anchor(graph, id).Some?
      ensures top.Some? ==>
        top.value.snapshotId == Anchor(graph, id).value && nodes[top.value.snapshotId] == top.value
      ensures |chain| == |Chain(graph, id)|
      ensures forall i :: 0 <= i < |chain| ==>
        Chain(graph, id)[|chain| - 1 - i] in nodes && chain[i] == nodes[Chain(graph, id)[|chain| - 1 - i]]
    {
      ghost var g := graph;
      var current := nodes[id];
      chain := [];
      ghost var path: seq<Id> := [];
      assert nodes[current.snapshotId] == current;
      while current.isVirtual
        invariant current.snapshotId in nodes && nodes[current.snapshotId] == current
        invariant Chain(g, id) == Chain(g, current.snapshotId) + path
        invariant Anchor(g, id) == Anchor(g, current.snapshotId)
        invariant |chain| == |path|
        invariant forall i :: 0 <= i < |path| ==> path[i] in nodes && chain[|path| - 1 - i] == nodes[path[i]]
        decreases Rank(order, current.snapshotId)
      {
        assert ParentEarlier(g, current.snapshotId);
        chain := chain + [current];
        path := [current.snapshotId] + path;
        if current.parentId.None? {
          assert Chain(g, id) == path;
          return chain, None;
        }
        current := nodes[current.parentId.value];
      }
      assert Chain(g, id) == path;
      top := Some(current);
    }

    /** Replay the commands of one node, in order. */
    method ReplayNode(cmds: seq<Command>, ghost start: State<S>, ghost done: seq<Command>)
      requires Valid() && View() == ExecAll(world, start, done)
      modifies this, stats
      ensures Valid() && nodes == old(nodes) && graph == old(graph) && tmpTreePrint == old(tmpTreePrint)
      ensures View() == ExecAll(world, start, done + cmds)
    {
      hide ExecAll, Exec;
      assert done + cmds[..0] == done;
      for j := 0 to |cmds|
        invariant Valid() && nodes == old(nodes) && graph == old(graph) && tmpTreePrint == old(tmpTreePrint)
        invariant View() == ExecAll(world, start, done + cmds[..j])
      {
        var reply := ExecCommand(cmds[j]);
        ExecAllOne(world, start, done + cmds[..j], cmds[j]);
        assert done + cmds[..j + 1] == done + cmds[..j] + [cmds[j]];
      }
      assert cmds[..|cmds|] == cmds;
    }

    /** Replay a list of nodes, in order. */
    method ReplayAll(chain: seq<SnapshotNode>, ghost ids: seq<Id>)
      requires Valid() && |ids| == |chain|
      requires forall i :: 0 <= i < |chain| ==> ids[i] in nodes && chain[i] == nodes[ids[i]]
      modifies this, stats
      ensures Valid() && nodes == old(nodes) && graph == old(graph) && tmpTreePrint == old(tmpTreePrint)
      ensures View() == ExecAll(world, old(View()), Commands(old(graph), ids))
    {
      hide Exec;
      ghost var start := View();
      ghost var g := graph;
      assert ExecAll(world, start, Commands(g, ids[..0])) == start;
      hide ExecAll;
      for k := 0 to |chain|
        invariant Valid() && nodes == old(nodes) && graph == g && tmpTreePrint == old(tmpTreePrint)
        invariant View() == ExecAll(world, start, Commands(g, ids[..k]))
      {
        ReplayNode(chain[k].replayCommands, start, Commands(g, ids[..k]));
        assert ids[..k + 1][..k] == ids[..k];
        assert g.nodes[ids[k]].replay == chain[k].replayCommands;
        assert Commands(g, ids[..k + 1]) == Commands(g, ids[..k]) + chain[k].replayCommands;
      }
      assert ids[..|chain|] == ids;
    }

    lemma NodeHeld(id: Id)
      requires Valid() && id in nodes
      ensures id in graph.nodes && nodes[id].snapshotId == id && nodes[id].View() == graph.nodes[id]
    {
    }

    /** Case 1 of `restore`: one call of the backend. */
    method RestorePhysical(id: Id, launch: Launch<S>) returns (ok: bool)
      requires Valid() && Ranked(graph) && id in nodes && !nodes[id].isVirtual
      modifies this, stats
      ensures Valid() && nodes == old(nodes) && graph == old(graph) && tmpTreePrint == old(tmpTreePrint)
      ensures ok == Restores(old(View()), id, launch)
      ensures View() == ManagerModel.Restore(world, old(View()), id, launch)
    {
      hide Valid, Keyed, Add, ManagerModel.Restore, Restores, Launches, LiveAfter;
      NodeHeld(id);
      assert Anchor(graph, id) == Some(id) && Replay(graph, id) == [];
      RestoreThrough(world, View(), id, launch);
      var elapsed;
      ok, elapsed := CoreCreateEnv(id, launch);
      if !ok {
        return false;
      }
      stats.AddEntry(RESTORE, Some(id), elapsed);
      currentSnapshotId := Some(id);
      lastSnapshotId := Some(id);
      commandLog := [];
    }

    /** Case 2 of `restore`, after the walk: one call of the backend for the
        ancestor `top`, then the replay of the chain from the top down. */
    method RestoreVirtual(id: Id, chain: seq<SnapshotNode>, top: SnapshotNode, launch: Launch<S>) returns (ok: bool)
      requires Valid() && Ranked(graph) && id in nodes && Anchor(graph, id) == Some(top.snapshotId)
      requires |chain| == |Chain(graph, id)|
      requires forall i :: 0 <= i < |chain| ==>
        Chain(graph, id)[i] in nodes && chain[i] == nodes[Chain(graph, id)[i]]
      modifies this, stats
      ensures Valid() && nodes == old(nodes) && graph == old(graph) && tmpTreePrint == old(tmpTreePrint)
      ensures ok == Restores(old(View()), id, launch)
      ensures View() == ManagerModel.Restore(world, old(View()), id, launch)
    {
      hide Valid, ExecAll, Exec, Chain, Anchor, Ranked, Commands, Add, ManagerModel.Restore, Restores;
      hide Launches, LiveAfter;
      NodeHeld(id);
      RestoreThrough(world, View(), id, launch);
      var elapsed;
      ok, elapsed := CoreCreateEnv(top.snapshotId, launch);
      if ok {
        stats.AddEntry(RESTORE, Some(top.snapshotId), elapsed);
        ReplayAll(chain, Chain(graph, id));
        currentSnapshotId := Some(id);
        lastSnapshotId := Some(id);
        commandLog := [];
      }
    }

    method Restore(id: Id, launch: Launch<S>) returns (ok: bool)
      requires Valid() && Ranked(graph)
      modifies this, stats
      ensures Valid() && nodes == old(nodes) && graph == old(graph) && tmpTreePrint == old(tmpTreePrint)
      ensures ok == Restores(old(View()), id, launch)
      ensures View() == ManagerModel.Restore(world, old(View()), id, launch)
    {
      hide NoDup, Keyed, ExecAll, Commands, Chain;
      if id !in nodes {
        return false;
      }
      if !nodes[id].isVirtual {
        ok := RestorePhysical(id, launch);
        return;
      }
      var chain, top := WalkUp(id);
      if top.None? {
        return false;
      }
      var replayChain := Reversed(chain);
      forall i | 0 <= i < |chain|
        ensures Chain(graph, id)[i] in nodes && replayChain[i] == nodes[Chain(graph, id)[i]]
      {
        assert i == |chain| - 1 - (|chain| - 1 - i);
      }
      ok := RestoreVirtual(id, replayChain, top.value, launch);
    }

    // ---------- printing ----------

    ghost function MarksView(): Marks
      reads this
    {
      Marks(currentSnapshotId, lastSnapshotId)
    }

    method PrintLine(id: Id, indent: string)
      requires indent == Spaces(|indent|)
      modifies `tmpTreePrint
      ensures tmpTreePrint == old(tmpTreePrint) + (LineText(Line(|indent|, id, MarkOf(MarksView(), id))) + "\n")
    {
      if Some(id) == currentSnapshotId {
        tmpTreePrint := tmpTreePrint + (indent + "- " + id.text + " (current)" + "\n");
      } else if Some(id) == lastSnapshotId {
        tmpTreePrint := tmpTreePrint + (indent + "- " + id.text + " (last)" + "\n");
      } else {
        tmpTreePrint := tmpTreePrint + (indent + "- " + id.text + "\n");
        assert id.text + "" == id.text;
      }
    }

    /** Print a node and, recursively, its children. */
    method PrintNode(id: Id, indent: string)
      requires Valid() && Downward(graph) && id in nodes && indent == Spaces(|indent|)
      modifies `tmpTreePrint
      ensures tmpTreePrint == old(tmpTreePrint)
        + JoinLines(Texts(Subtree(old(graph), old(MarksView()), id, |indent|)))
      decreases |order| - Rank(order, id), 1
    {
      hide JoinLines, Texts, LineText, Suffix, HEADER, NoDup, Subtree, Subtrees;
      assert ChildrenLater(graph, id);
      assert indent + "  " == Spaces(|indent| + 2);
      TextOfSubtree(graph, MarksView(), id, |indent|);
      PrintLine(id, indent);
      PrintNodes(nodes[id].children, indent + "  ", Rank(order, id) + 1);
    }

    method PrintNodes(ids: seq<Id>, indent: string, ghost floor: nat)
      requires Valid() && Downward(graph) && floor <= |order| && Above(graph, ids, floor)
      requires indent == Spaces(|indent|)
      modifies `tmpTreePrint
      ensures tmpTreePrint == old(tmpTreePrint)
        + JoinLines(Texts(Subtrees(old(graph), old(MarksView()), ids, floor, |indent|)))
      decreases |order| - floor, 2 + |ids|
    {
      hide Subtree, JoinLines, Texts, Downward, LineText, Suffix, Spaces, MarkOf, HEADER, Keyed, NoDup;
      ghost var g, m := graph, MarksView();
      ghost var start := tmpTreePrint;
      assert ids[0..] == ids;
      for k := 0 to |ids|
        invariant unchanged(`graph)
        invariant start + JoinLines(Texts(Subtrees(g, m, ids, floor, |indent|)))
          == tmpTreePrint + JoinLines(Texts(Subtrees(g, m, ids[k..], floor, |indent|)))
      {
        PrintNode(ids[k], indent);
        TextsOfSubtrees(g, m, ids[k..], floor, |indent|);
        assert ids[k..][1..] == ids[k + 1..];
      }
      TextsOfNothing(g, m, floor, |indent|);
      assert ids[|ids|..] == [];
    }

    /** The ids of the nodes without a parent, in creation order. */
    method RootIds() returns (roots: seq<Id>)
      requires Valid() && Keyed(graph)
      ensures order == graph.order && roots == Roots(graph, graph.order)
    {
      hide NoDup;
      roots := [];
      for k := 0 to |order|
        invariant roots == Roots(graph, order[..k])
      {
        if nodes[order[k]].parentId.None? {
          roots := roots + [order[k]];
        }
        assert order[..k + 1][..k] == order[..k];
      }
      assert order[..|order|] == order;
    }

    method PrintSnapshotTree() returns (text: string)
      requires Valid() && Downward(graph)
      modifies `tmpTreePrint
      ensures text == TreeText(old(graph), old(MarksView()))
      ensures Tree(old(graph)) && (forall id :: id in old(graph).nodes ==> Clean(id)) ==>
        Printed(old(graph), old(MarksView()), text)
      ensures old(graph).order == [] ==> text == "No snapshot tree available.\n"
    {
      hide Valid, JoinLines, Texts, LineText, Suffix, NoDup, ChildrenLater, Subtree, Subtrees, Roots, MarkOf;
      hide Printed, Tree, Clean, SplitLines;
      ghost var g := graph;
      TextIsPrintedIfClean(graph, MarksView());
      NothingPrinted(graph, MarksView());
      tmpTreePrint := "";
      var roots := RootIds();
      if roots == [] {
        return "No snapshot tree available.\n";
      }
      tmpTreePrint := tmpTreePrint + "Snapshot Tree:\n";
      RootsInOrder(g, order);
      assert " " == Spaces(1);
      PrintNodes(roots, " ", 0);
      text := tmpTreePrint;
    }

    // ---------- cleanup ----------

    /** Remove the container, then every registered image, one by one. */
    method Cleanup(gone: S)
      requires Valid()
      modifies this
      ensures Valid() && nodes == old(nodes)
      ensures View() == ManagerModel.Cleanup(old(View()), gone)
    {
      hide Valid;
      live := gone;
      ghost var registry := snapshots;
      ghost var removed := {};
      var left := snapshots.Keys;
      while left != {}
        invariant left <= registry.Keys && removed == registry.Keys - left
        invariant snapshots == registry - removed
        invariant store == old(store) - (set id | id in removed :: registry[id])
        invariant unchanged(`nodes) && unchanged(`order) && unchanged(`graph)
        invariant unchanged(`commandLog) && unchanged(`tmpTreePrint)
        invariant unchanged(`lastSnapshotId) && unchanged(`currentSnapshotId) && unchanged(`cumulativeExecTime)
        invariant live == gone
        decreases left
      {
        var id :| id in left;
        var image := snapshots[id];
        assert (set i | i in removed + {id} :: registry[i]) == (set i | i in removed :: registry[i]) + {image};
        store := store - {image};
        snapshots := snapshots - {id};
        left := left - {id};
        removed := removed + {id};
      }
      assert removed == registry.Keys;
      assert (set id | id in removed :: registry[id]) == registry.Values;
      isCleanedUp := true;
    }
  }

  /** `restore` on values, once the walk has met a physical ancestor. */
  lemma RestoreThrough<S>(w: World<S>, s: State<S>, id: Id, launch: Launch<S>)
    requires Ranked(s.graph) && id in s.graph.nodes && Anchor(s.graph, id).Some?
    ensures
      var top := Anchor(s.graph, id).value;
      var t := s.(live := LiveAfter(s, top, launch));
      && Restores(s, id, launch) == Launches(s, top, launch)
      && ManagerModel.Restore(w, s, id, launch)
           == if !Launches(s, top, launch) then t
              else
                ExecAll(w, t.(stats := Add(s.stats, RESTORE, Some(top), launch.elapsed)), Replay(s.graph, id))
                .(current := Some(id), last := Some(id), log := [])
  {
  }

  lemma TextIsPrintedIfClean(g: Graph, m: Marks)
    requires Downward(g)
    ensures Tree(g) && (forall id :: id in g.nodes ==> Clean(id)) ==> Printed(g, m, TreeText(g, m))
  {
    hide Tree, Printed, TreeText, Clean;
    if Tree(g) && forall id :: id in g.nodes ==> Clean(id) { TextIsPrinted(g, m); }
  }

  lemma NothingPrinted(g: Graph, m: Marks)
    requires Downward(g)
    ensures g.order == [] ==> TreeText(g, m) == "No snapshot tree available.\n"
  {
  }

  lemma TextsOfNothing(g: Graph, m: Marks, floor: nat, indent: nat)
    requires Downward(g) && floor <= |g.order|
    ensures JoinLines(Texts(Subtrees(g, m, [], floor, indent))) == ""
  {
  }

  lemma TextOfSubtree(g: Graph, m: Marks, id: Id, indent: nat)
    requires Downward(g) && id in g.nodes && ChildrenLater(g, id)
    ensures JoinLines(Texts(Subtree(g, m, id, indent))) == LineText(Line(indent, id, MarkOf(m, id))) + "\n"
      + JoinLines(Texts(Subtrees(g, m, g.nodes[id].children, Rank(g.order, id) + 1, indent + 2)))
  {
    hide JoinLines, Texts, LineText;
    TextOfLines(
      Line(indent, id, MarkOf(m, id)),
      Subtrees(g, m, g.nodes[id].children, Rank(g.order, id) + 1, indent + 2));
  }

  lemma TextOfLines(head: Line, rest: seq<Line>)
    ensures JoinLines(Texts([head] + rest)) == LineText(head) + "\n" + JoinLines(Texts(rest))
  {
    hide LineText;
    assert Texts([head] + rest) == [LineText(head)] + Texts(rest);
    assert Texts([head] + rest)[1..] == Texts(rest);
  }

  lemma TextsOfSubtrees(g: Graph, m: Marks, ids: seq<Id>, floor: nat, indent: nat)
    requires Downward(g) && floor <= |g.order| && Above(g, ids, floor) && ids != []
    ensures JoinLines(Texts(Subtrees(g, m, ids, floor, indent)))
      == JoinLines(Texts(Subtree(g, m, ids[0], indent))) + JoinLines(Texts(Subtrees(g, m, ids[1..], floor, indent)))
  {
    hide JoinLines, Texts, Subtree;
    var a, b := Subtree(g, m, ids[0], indent), Subtrees(g, m, ids[1..], floor, indent);
    TextsAppend(a, b);
  }

  lemma TextsAppend(a: seq<Line>, b: seq<Line>)
    ensures JoinLines(Texts(a + b)) == JoinLines(Texts(a)) + JoinLines(Texts(b))
  {
    hide JoinLines, LineText;
    assert Texts(a + b) == Texts(a) + Texts(b);
    JoinAppend(Texts(a), Texts(b));
  }
}
