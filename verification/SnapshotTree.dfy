/** The snapshot tree of `EnvironmentManager`: nodes, the walk from a node up
    to its nearest physical ancestor, and the graph update of a new snapshot. */
module SnapshotTree {
  import opened Prelude

  datatype Id = Id(text: string)

  /** A command is an argument list or a raw shell string. */
  datatype Command = Argv(args: seq<string>) | Raw(text: string)

  datatype Node = Node(id: Id, parent: Option<Id>, children: seq<Id>, isVirtual: bool, replay: seq<Command>)

  /** `snapshot_graph`: a dictionary together with its key order, which is the
      order in which the snapshots were created. */
  datatype Graph = Graph(nodes: map<Id, Node>, order: seq<Id>)

  ghost predicate Keyed(g: Graph) {
    && NoDup(g.order)
    && (forall i :: 0 <= i < |g.order| ==> g.order[i] in g.nodes)
    && (forall id :: id in g.nodes ==> id in g.order)
    && (forall id :: id in g.nodes ==> g.nodes[id].id == id)
  }

  ghost predicate ParentEarlier(g: Graph, id: Id)
    requires Keyed(g) && id in g.nodes
  {
    var parent := g.nodes[id].parent;
    parent.Some? ==> parent.value in g.nodes && Rank(g.order, parent.value) < Rank(g.order, id)
  }

  /** Every parent was created before its child, so every walk up ends. */
  ghost predicate Ranked(g: Graph) {
    && Keyed(g)
    && forall id {:trigger ParentEarlier(g, id)} :: id in g.nodes ==> ParentEarlier(g, id)
  }

  /** The children of `p`, in creation order, as the parent links give them. */
  function ChildrenIn(g: Graph, order: seq<Id>, p: Id): seq<Id>
    requires forall i :: 0 <= i < |order| ==> order[i] in g.nodes
  {
    if order == [] then []
    else
      var n := |order| - 1;
      ChildrenIn(g, order[..n], p) + if g.nodes[order[n]].parent == Some(p) then [order[n]] else []
  }

  ghost predicate ListsItsChildren(g: Graph, id: Id)
    requires Keyed(g) && id in g.nodes
  {
    g.nodes[id].children == ChildrenIn(g, g.order, id)
  }

  /** The shape every run keeps: one physical root, created first; every other
      node has an earlier parent; each children list is exactly the nodes
      naming that parent; physical nodes carry no commands. */
  ghost predicate Tree(g: Graph) {
    && Ranked(g)
    && g.order != []
    && Id("") !in g.nodes
    && (forall id :: id in g.nodes ==> (g.nodes[id].parent.None? <==> id == g.order[0]))
    && !g.nodes[g.order[0]].isVirtual
    && (forall id {:trigger ListsItsChildren(g, id)} :: id in g.nodes ==> ListsItsChildren(g, id))
    && (forall id :: id in g.nodes && !g.nodes[id].isVirtual ==> g.nodes[id].replay == [])
  }

  /** A children list holds exactly the nodes that name the parent. */
  lemma {:induction false} ChildrenHaveParent(g: Graph, order: seq<Id>, p: Id, c: Id)
    requires forall i :: 0 <= i < |order| ==> order[i] in g.nodes
    ensures c in ChildrenIn(g, order, p) <==> c in order && g.nodes[c].parent == Some(p)
  {
    if order != [] {
      ChildrenHaveParent(g, order[..|order| - 1], p, c);
      assert order == order[..|order| - 1] + [order[|order| - 1]];
    }
  }

  /** The virtual nodes on the way from the nearest physical ancestor down to `id`. */
  function Chain(g: Graph, id: Id): (chain: seq<Id>)
    requires Ranked(g) && id in g.nodes
    ensures forall i :: 0 <= i < |chain| ==> chain[i] in g.nodes
    decreases Rank(g.order, id)
  {
    assert ParentEarlier(g, id);
    var n := g.nodes[id];
    if !n.isVirtual then []
    else if n.parent.None? then [id]
    else Chain(g, n.parent.value) + [id]
  }

  /** The nearest physical ancestor, if the walk meets one. */
  function Anchor(g: Graph, id: Id): (a: Option<Id>)
    requires Ranked(g) && id in g.nodes
    ensures a.Some? ==> a.value in g.nodes && !g.nodes[a.value].isVirtual
    decreases Rank(g.order, id)
  {
    assert ParentEarlier(g, id);
    var n := g.nodes[id];
    if !n.isVirtual then Some(id)
    else if n.parent.None? then None
    else Anchor(g, n.parent.value)
  }

  /** The commands of a chain of nodes, in order. */
  function Commands(g: Graph, ids: seq<Id>): seq<Command>
    requires forall i :: 0 <= i < |ids| ==> ids[i] in g.nodes
  {
    if ids == [] then [] else Commands(g, ids[..|ids| - 1]) + g.nodes[ids[|ids| - 1]].replay
  }

  function Replay(g: Graph, id: Id): seq<Command>
    requires Ranked(g) && id in g.nodes
  {
    Commands(g, Chain(g, id))
  }

  ghost predicate Linked(g: Graph, top: Id, path: seq<Id>, i: nat)
    requires i < |path|
  {
    && path[i] in g.nodes && g.nodes[path[i]].isVirtual
    && g.nodes[path[i]].parent == Some(if i == 0 then top else path[i - 1])
  }

  /** A path in the plain sense of the parent links: from the physical node
      `top`, through `path`, down to `id`, with every node of `path` virtual. */
  ghost predicate IsVirtualPath(g: Graph, top: Id, path: seq<Id>, id: Id) {
    && top in g.nodes && !g.nodes[top].isVirtual
    && (forall i :: 0 <= i < |path| ==> Linked(g, top, path, i))
    && id == if path == [] then top else path[|path| - 1]
  }

  /** Dropping the last node of a virtual path leaves the path to its parent. */
  lemma PathToParent(g: Graph, top: Id, path: seq<Id>, parent: Id)
    requires path != [] && Linked(g, parent, [path[|path| - 1]], 0)
    ensures IsVirtualPath(g, top, path, path[|path| - 1]) <==> IsVirtualPath(g, top, path[..|path| - 1], parent)
  {
    var n := |path| - 1;
    var shorter := path[..n];
    forall i | 0 <= i < n ensures Linked(g, top, path, i) <==> Linked(g, top, shorter, i) {
    }
    assert Linked(g, top, path, n) <==> parent == if n == 0 then top else path[n - 1];
  }

  /** The walk finds the one path there is: `Chain` and `Anchor` are exactly
      the virtual path from a physical node to `id`. */
  lemma {:induction false} ChainIsThePath(g: Graph, id: Id, top: Id, path: seq<Id>)
    requires Ranked(g) && id in g.nodes
    ensures IsVirtualPath(g, top, path, id) <==> Anchor(g, id) == Some(top) && Chain(g, id) == path
    decreases Rank(g.order, id)
  {
    assert ParentEarlier(g, id);
    var n := g.nodes[id];
    if path != [] && IsVirtualPath(g, top, path, id) {
      assert Linked(g, top, path, |path| - 1);
    }
    if n.isVirtual && n.parent.Some? && path != [] {
      var shorter := path[..|path| - 1];
      ChainIsThePath(g, n.parent.value, top, shorter);
      if path[|path| - 1] == id {
        PathToParent(g, top, path, n.parent.value);
        assert path == shorter + [id];
      }
      assert Chain(g, id) == path <==> Chain(g, n.parent.value) == shorter && path[|path| - 1] == id;
    }
  }

  /** In a tree the walk never runs off the top: the branch of `restore` that
      reports "no physical ancestor" is unreachable. */
  lemma {:induction false} PhysicalAncestorExists(g: Graph, id: Id)
    requires Tree(g) && id in g.nodes
    ensures Anchor(g, id).Some?
    decreases Rank(g.order, id)
  {
    assert ParentEarlier(g, id);
    var n := g.nodes[id];
    if n.isVirtual {
      PhysicalAncestorExists(g, n.parent.value);
    }
  }

  // ---------- the graph update of `snapshot` ----------

  /** Insert a node and append it to its parent's children list. */
  function Attach(g: Graph, node: Node): Graph {
    var nodes := g.nodes[node.id := node];
    var order := if node.id in g.nodes then g.order else g.order + [node.id];
    if node.parent.Some? && node.parent.value in nodes then
      var p := nodes[node.parent.value];
      Graph(nodes[node.parent.value := p.(children := p.children + [node.id])], order)
    else
      Graph(nodes, order)
  }

  /** No node disappears or changes its parent, kind or commands; creation
      order and children lists only grow at the end. */
  ghost predicate Preserves(g: Graph, h: Graph) {
    && g.order <= h.order
    && forall id :: id in g.nodes ==>
         && id in h.nodes
         && h.nodes[id].parent == g.nodes[id].parent
         && h.nodes[id].isVirtual == g.nodes[id].isVirtual
         && h.nodes[id].replay == g.nodes[id].replay
         && g.nodes[id].children <= h.nodes[id].children
  }

  /** Extending a duplicate-free order keeps the ranks it had. */
  lemma RankKept(a: seq<Id>, b: seq<Id>, id: Id)
    requires NoDup(b) && a <= b && id in a
    ensures id in b && Rank(a, id) == Rank(b, id)
  {
    assert b[Rank(a, id)] == id;
  }

  /** Children read off the old part of the order do not notice the new node. */
  lemma {:induction false} ChildrenInSame(g: Graph, h: Graph, order: seq<Id>, p: Id)
    requires forall i :: 0 <= i < |order| ==>
      order[i] in g.nodes && order[i] in h.nodes && g.nodes[order[i]].parent == h.nodes[order[i]].parent
    ensures ChildrenIn(g, order, p) == ChildrenIn(h, order, p)
  {
    if order != [] {
      ChildrenInSame(g, h, order[..|order| - 1], p);
    }
  }

  lemma {:induction false} NoChildrenBefore(g: Graph, order: seq<Id>, p: Id)
    requires forall i :: 0 <= i < |order| ==> order[i] in g.nodes && g.nodes[order[i]].parent != Some(p)
    ensures ChildrenIn(g, order, p) == []
  {
    if order != [] {
      NoChildrenBefore(g, order[..|order| - 1], p);
    }
  }

  predicate Fits(g: Graph, node: Node) {
    && node.id !in g.nodes && node.id != Id("")
    && node.parent.Some? && node.parent.value in g.nodes
    && node.children == []
    && (!node.isVirtual ==> node.replay == [])
  }

  lemma OrderGrows(order: seq<Id>, id: Id)
    requires NoDup(order) && id !in order
    ensures NoDup(order + [id])
  {
    var longer := order + [id];
    forall i | 0 <= i < |longer| ensures Rank(longer, longer[i]) == i {
      var r := Rank(longer, longer[i]);
      if r < |order| && i < |order| {
        assert order[r] == order[i];
      }
    }
  }

  lemma AttachKeyed(g: Graph, node: Node)
    requires Keyed(g) && Fits(g, node)
    ensures var h := Attach(g, node);
      && Keyed(h) && Preserves(g, h) && h.order == g.order + [node.id] && h.nodes[node.id] == node
      && forall id :: id in h.nodes <==> id in g.nodes || id == node.id
  {
    var h := Attach(g, node);
    assert node.id !in g.order;
    OrderGrows(g.order, node.id);
    forall id | id in h.nodes ensures id in h.order {
      if id in g.nodes {
        assert h.order[Rank(g.order, id)] == id;
      } else {
        assert h.order[|g.order|] == id;
      }
    }
  }

  lemma AttachRanked(g: Graph, node: Node)
    requires Tree(g) && Fits(g, node)
    ensures Ranked(Attach(g, node))
  {
    var h := Attach(g, node);
    AttachKeyed(g, node);
    forall id | id in h.nodes ensures ParentEarlier(h, id) {
      if h.nodes[id].parent.Some? {
        if id in g.nodes {
          assert ParentEarlier(g, id);
          RankKept(g.order, h.order, id);
        }
        RankKept(g.order, h.order, h.nodes[id].parent.value);
      }
    }
  }

  lemma AttachChildren(g: Graph, node: Node, id: Id)
    requires Tree(g) && Fits(g, node) && Keyed(Attach(g, node)) && id in Attach(g, node).nodes
    ensures ListsItsChildren(Attach(g, node), id)
  {
    var h := Attach(g, node);
    AttachKeyed(g, node);
    assert h.order[..|h.order| - 1] == g.order;
    ChildrenInSame(g, h, g.order, id);
    assert ChildrenIn(h, h.order, id)
        == ChildrenIn(g, g.order, id) + if node.parent == Some(id) then [node.id] else [];
    if id == node.id {
      forall i | 0 <= i < |g.order| ensures g.nodes[g.order[i]].parent != Some(id) {
        assert ParentEarlier(g, g.order[i]);
      }
      NoChildrenBefore(g, g.order, id);
    } else {
      assert ListsItsChildren(g, id);
    }
  }

  /** A snapshot with a fresh id keeps the tree, whatever its kind. */
  lemma AttachKeepsTree(g: Graph, node: Node)
    requires Tree(g) && Fits(g, node)
    ensures Tree(Attach(g, node)) && Preserves(g, Attach(g, node))
  {
    var h := Attach(g, node);
    AttachKeyed(g, node);
    AttachRanked(g, node);
    assert h.order[0] == g.order[0];
    forall id | id in h.nodes ensures ListsItsChildren(h, id) {
      AttachChildren(g, node, id);
    }
  }

  /** Walks that start at an old node are the same in the larger graph. */
  lemma {:induction false} WalkKept(g: Graph, h: Graph, id: Id)
    requires Ranked(g) && Ranked(h) && Preserves(g, h) && id in g.nodes
    ensures id in h.nodes && Chain(h, id) == Chain(g, id) && Anchor(h, id) == Anchor(g, id)
    decreases Rank(g.order, id)
  {
    assert ParentEarlier(g, id);
    var n := g.nodes[id];
    if n.isVirtual && n.parent.Some? {
      WalkKept(g, h, n.parent.value);
    }
  }

  lemma {:induction false} CommandsKept(g: Graph, h: Graph, ids: seq<Id>)
    requires forall i :: 0 <= i < |ids| ==>
      ids[i] in g.nodes && ids[i] in h.nodes && g.nodes[ids[i]].replay == h.nodes[ids[i]].replay
    ensures Commands(g, ids) == Commands(h, ids)
  {
    if ids != [] {
      CommandsKept(g, h, ids[..|ids| - 1]);
    }
  }

  lemma ReplayKept(g: Graph, h: Graph, id: Id)
    requires Ranked(g) && Ranked(h) && Preserves(g, h) && id in g.nodes
    ensures id in h.nodes && Replay(h, id) == Replay(g, id) && Anchor(h, id) == Anchor(g, id)
  {
    WalkKept(g, h, id);
    CommandsKept(g, h, Chain(g, id));
  }

  /** The walk from a new virtual node: one more link on its parent's walk. */
  lemma VirtualWalk(g: Graph, node: Node)
    requires Tree(g) && Fits(g, node) && node.isVirtual && Ranked(Attach(g, node))
    ensures node.id in Attach(g, node).nodes
    ensures Anchor(Attach(g, node), node.id) == Anchor(g, node.parent.value)
    ensures Replay(Attach(g, node), node.id) == Replay(g, node.parent.value) + node.replay
  {
    var h, p := Attach(g, node), node.parent.value;
    AttachKeyed(g, node);
    ReplayKept(g, h, p);
    assert ParentEarlier(h, node.id);
    var chain := Chain(h, node.id);
    assert chain == Chain(h, p) + [node.id];
    assert chain[..|chain| - 1] == Chain(h, p);
  }
}
