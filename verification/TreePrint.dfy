/** `print_snapshot_tree`: the lines it prints, and why they determine the tree. */
module TreePrint {
  import opened Prelude
  import opened SnapshotTree
  import opened Text

  datatype Mark = Plain | Current | Last

  datatype Line = Line(indent: nat, id: Id, mark: Mark)

  /** The two positions that the printer marks. */
  datatype Marks = Marks(current: Option<Id>, last: Option<Id>)

  function MarkOf(m: Marks, id: Id): Mark {
    if m.current == Some(id) then Current else if m.last == Some(id) then Last else Plain
  }

  ghost predicate ChildrenLater(g: Graph, id: Id)
    requires Keyed(g) && id in g.nodes
  {
    forall i :: 0 <= i < |g.nodes[id].children| ==>
      g.nodes[id].children[i] in g.nodes && Rank(g.order, g.nodes[id].children[i]) > Rank(g.order, id)
  }

  /** Children come after their parent, so the recursion ends. */
  ghost predicate Downward(g: Graph) {
    Keyed(g) && forall id {:trigger ChildrenLater(g, id)} :: id in g.nodes ==> ChildrenLater(g, id)
  }

  lemma {:induction false} ChildrenDistinct(g: Graph, order: seq<Id>, p: Id)
    requires forall i :: 0 <= i < |order| ==> order[i] in g.nodes
    requires Distinct(order)
    ensures Distinct(ChildrenIn(g, order, p))
  {
    if order != [] {
      var n := |order| - 1;
      ChildrenDistinct(g, order[..n], p);
      ChildrenHaveParent(g, order[..n], p, order[n]);
    }
  }

  lemma TreeIsDownward(g: Graph)
    requires Tree(g)
    ensures Downward(g)
  {
    forall id | id in g.nodes ensures ChildrenLater(g, id) {
      assert ListsItsChildren(g, id);
      forall i | 0 <= i < |g.nodes[id].children|
        ensures g.nodes[id].children[i] in g.nodes
        ensures Rank(g.order, g.nodes[id].children[i]) > Rank(g.order, id)
      {
        var c := g.nodes[id].children[i];
        ChildrenHaveParent(g, g.order, id, c);
        assert ParentEarlier(g, c);
      }
    }
  }

  // ---------- the printed lines ----------

  ghost predicate Above(g: Graph, ids: seq<Id>, floor: nat)
    requires Keyed(g)
  {
    forall i :: 0 <= i < |ids| ==> ids[i] in g.nodes && floor <= Rank(g.order, ids[i])
  }

  /** The lines of one node and everything below it. */
  ghost function Subtree(g: Graph, m: Marks, id: Id, indent: nat): (lines: seq<Line>)
    requires Downward(g) && id in g.nodes
    ensures forall i :: 0 <= i < |lines| ==> lines[i].mark == MarkOf(m, lines[i].id)
    ensures |lines| > 0 && lines[0] == Line(indent, id, MarkOf(m, id))
    decreases |g.order| - Rank(g.order, id), 0
  {
    assert ChildrenLater(g, id);
    [Line(indent, id, MarkOf(m, id))] + Subtrees(g, m, g.nodes[id].children, Rank(g.order, id) + 1, indent + 2)
  }

  ghost function Subtrees(g: Graph, m: Marks, ids: seq<Id>, floor: nat, indent: nat): (lines: seq<Line>)
    requires Downward(g) && floor <= |g.order| && Above(g, ids, floor)
    ensures forall i :: 0 <= i < |lines| ==> lines[i].mark == MarkOf(m, lines[i].id)
    decreases |g.order| - floor, |ids|
  {
    if ids == [] then []
    else Subtree(g, m, ids[0], indent) + Subtrees(g, m, ids[1..], floor, indent)
  }

  // ---------- reading the structure back from the indents ----------

  /** The nearest earlier line with a smaller indent, or -1. */
  function OwnerFrom(lines: seq<Line>, i: nat, j: int): (o: int)
    requires i < |lines| && -1 <= j < i
    ensures -1 <= o <= j
    ensures o >= 0 ==> lines[o].indent < lines[i].indent
    ensures forall k :: o < k <= j ==> lines[k].indent >= lines[i].indent
    decreases j + 1
  {
    if j == -1 || lines[j].indent < lines[i].indent then j else OwnerFrom(lines, i, j - 1)
  }

  function Owner(lines: seq<Line>, i: nat): (o: int)
    requires i < |lines|
    ensures -1 <= o < i
  {
    OwnerFrom(lines, i, i - 1)
  }

  /** Only one position is nearest. */
  lemma OwnerIs(lines: seq<Line>, i: nat, o: int)
    requires i < |lines| && -1 <= o < i
    requires o >= 0 ==> lines[o].indent < lines[i].indent
    requires forall k :: o < k < i ==> lines[k].indent >= lines[i].indent
    ensures Owner(lines, i) == o
  {
    var r := OwnerFrom(lines, i, i - 1);
  }

  /** The ids of the lines below `n` that belong to line `k`; -1 for none. */
  function Owned(lines: seq<Line>, k: int, n: nat): seq<Id>
    requires n <= |lines|
  {
    if n == 0 then [] else Owned(lines, k, n - 1) + if Owner(lines, n - 1) == k then [lines[n - 1].id] else []
  }

  /** Line `i` sits where its node's parent says. */
  ghost predicate Placed(g: Graph, lines: seq<Line>, indent: nat, parent: Option<Id>, i: nat)
    requires i < |lines|
  {
    var o := Owner(lines, i);
    && lines[i].id in g.nodes && lines[i].indent >= indent
    && (o == -1 ==> lines[i].indent == indent && g.nodes[lines[i].id].parent == parent)
    && (o >= 0 ==> lines[i].indent == lines[o].indent + 2 && g.nodes[lines[i].id].parent == Some(lines[o].id))
  }

  /** A block of lines printed at `indent` below `parent` with the top ids
      `tops`: owners are parents, and each line owns exactly its children. */
  ghost predicate Faithful(g: Graph, lines: seq<Line>, indent: nat, parent: Option<Id>, tops: seq<Id>) {
    && (forall i {:trigger Placed(g, lines, indent, parent, i)} ::
          0 <= i < |lines| ==> Placed(g, lines, indent, parent, i))
    && Owned(lines, -1, |lines|) == tops
    && forall k {:trigger Owned(lines, k, |lines|)} :: 0 <= k < |lines| ==>
         lines[k].id in g.nodes && Owned(lines, k, |lines|) == g.nodes[lines[k].id].children
  }

  lemma OwnerOfFirst(a: seq<Line>, b: seq<Line>, i: nat)
    requires i < |a|
    ensures Owner(a + b, i) == Owner(a, i)
  {
    OwnerIs(a + b, i, Owner(a, i));
  }

  /** In the second of two blocks at the same indent nothing belongs to the first. */
  lemma OwnerOfSecond(g: Graph, a: seq<Line>, b: seq<Line>, indent: nat, p: Option<Id>, i: nat)
    requires i < |b| && Placed(g, b, indent, p, i)
    requires forall k :: 0 <= k < |a| ==> a[k].indent >= indent
    ensures Owner(a + b, |a| + i) == if Owner(b, i) == -1 then -1 else |a| + Owner(b, i)
  {
    var o := Owner(b, i);
    var lines := a + b;
    forall k | |a| <= k < |lines| ensures lines[k] == b[k - |a|] {}
    OwnerIs(lines, |a| + i, if o == -1 then -1 else |a| + o);
  }

  lemma {:induction false} OwnedFirst(a: seq<Line>, b: seq<Line>, k: int, n: nat)
    requires n <= |a|
    ensures Owned(a + b, k, n) == Owned(a, k, n)
  {
    if n > 0 {
      OwnedFirst(a, b, k, n - 1);
      OwnerOfFirst(a, b, n - 1);
    }
  }

  lemma {:induction false} OwnedSecond(g: Graph, a: seq<Line>, b: seq<Line>, indent: nat, p: Option<Id>, k: int, n: nat)
    requires n <= |b| && -1 <= k
    requires forall i :: 0 <= i < |b| ==> Placed(g, b, indent, p, i)
    requires forall i :: 0 <= i < |a| ==> a[i].indent >= indent
    ensures Owned(a + b, k, |a| + n) == Owned(a, k, |a|)
      + (if k == -1 then Owned(b, -1, n) else if k < |a| then [] else Owned(b, k - |a|, n))
  {
    hide Owner, Placed;
    if n == 0 {
      OwnedFirst(a, b, k, |a|);
    } else {
      OwnedSecond(g, a, b, indent, p, k, n - 1);
      assert Placed(g, b, indent, p, n - 1);
      OwnerOfSecond(g, a, b, indent, p, n - 1);
      var last := if Owner(a + b, |a| + n - 1) == k then [b[n - 1].id] else [];
      assert Owned(a + b, k, |a| + n) == Owned(a + b, k, |a| + n - 1) + last;
      if k == -1 || k >= |a| {
        var k' := if k == -1 then -1 else k - |a|;
        assert last == if Owner(b, n - 1) == k' then [b[n - 1].id] else [];
        assert Owned(a, k, |a|) + Owned(b, k', n - 1) + last == Owned(a, k, |a|) + (Owned(b, k', n - 1) + last);
      } else {
        assert last == [];
      }
    }
  }

  lemma {:induction false} NothingOwnedFromOutside(lines: seq<Line>, k: int, n: nat)
    requires n <= |lines| <= k
    ensures Owned(lines, k, n) == []
  {
    if n > 0 { NothingOwnedFromOutside(lines, k, n - 1); }
  }

  lemma PlacedAppend(g: Graph, a: seq<Line>, b: seq<Line>, indent: nat, p: Option<Id>, s: seq<Id>, t: seq<Id>, i: nat)
    requires Faithful(g, a, indent, p, s) && Faithful(g, b, indent, p, t) && i < |a + b|
    ensures Placed(g, a + b, indent, p, i)
  {
    hide Owner, Owned;
    forall i | 0 <= i < |a| ensures a[i].indent >= indent { assert Placed(g, a, indent, p, i); }
    if i < |a| {
      assert Placed(g, a, indent, p, i);
      OwnerOfFirst(a, b, i);
    } else {
      assert Placed(g, b, indent, p, i - |a|);
      OwnerOfSecond(g, a, b, indent, p, i - |a|);
    }
  }

  /** Two faithful blocks one after the other. */
  lemma FaithfulAppend(g: Graph, a: seq<Line>, b: seq<Line>, indent: nat, p: Option<Id>, s: seq<Id>, t: seq<Id>)
    requires Faithful(g, a, indent, p, s) && Faithful(g, b, indent, p, t)
    ensures Faithful(g, a + b, indent, p, s + t)
  {
    hide Owner, Owned;
    var lines := a + b;
    forall i | 0 <= i < |a| ensures a[i].indent >= indent { assert Placed(g, a, indent, p, i); }
    forall i | 0 <= i < |lines| ensures Placed(g, lines, indent, p, i) {
      PlacedAppend(g, a, b, indent, p, s, t, i);
    }
    OwnedSecond(g, a, b, indent, p, -1, |b|);
    forall k | 0 <= k < |lines|
      ensures lines[k].id in g.nodes && Owned(lines, k, |lines|) == g.nodes[lines[k].id].children
    {
      OwnedSecond(g, a, b, indent, p, k, |b|);
      if k < |a| {
        assert Owned(a, k, |a|) == g.nodes[a[k].id].children;
      } else {
        NothingOwnedFromOutside(a, k, |a|);
        assert Owned(b, k - |a|, |b|) == g.nodes[b[k - |a|].id].children;
      }
    }
  }

  lemma OwnerUnderHead(g: Graph, head: Line, b: seq<Line>, i: nat)
    requires i < |b| && Placed(g, b, head.indent + 2, Some(head.id), i)
    ensures Owner([head] + b, i + 1) == Owner(b, i) + 1
  {
    var lines := [head] + b;
    forall k | 1 <= k < |lines| ensures lines[k] == b[k - 1] {}
    OwnerIs(lines, i + 1, Owner(b, i) + 1);
  }

  lemma {:induction false} OwnedUnderHead(g: Graph, head: Line, b: seq<Line>, indent: nat, k: int, n: nat)
    requires n <= |b| && -1 <= k && indent == head.indent + 2
    requires forall i :: 0 <= i < |b| ==> Placed(g, b, indent, Some(head.id), i)
    ensures Owned([head] + b, k, n + 1) == if k == -1 then [head.id] else Owned(b, k - 1, n)
  {
    hide Owner, OwnerFrom, Placed;
    var lines := [head] + b;
    if n == 0 {
      assert Owned(lines, k, 0) == [];
    } else {
      OwnedUnderHead(g, head, b, indent, k, n - 1);
      assert Placed(g, b, indent, Some(head.id), n - 1);
      OwnerUnderHead(g, head, b, n - 1);
      assert lines[n] == b[n - 1];
    }
  }

  /** A head line over a faithful block of its children. */
  lemma FaithfulUnderHead(g: Graph, head: Line, b: seq<Line>)
    requires head.id in g.nodes
    requires Faithful(g, b, head.indent + 2, Some(head.id), g.nodes[head.id].children)
    ensures Faithful(g, [head] + b, head.indent, g.nodes[head.id].parent, [head.id])
  {
    hide Owned, OwnerFrom;
    var lines := [head] + b;
    forall i | 0 <= i < |lines| ensures Placed(g, lines, head.indent, g.nodes[head.id].parent, i) {
      if i > 0 {
        assert Placed(g, b, head.indent + 2, Some(head.id), i - 1);
        OwnerUnderHead(g, head, b, i - 1);
      }
    }
    OwnedUnderHead(g, head, b, head.indent + 2, -1, |b|);
    forall k | 0 <= k < |lines|
      ensures lines[k].id in g.nodes && Owned(lines, k, |lines|) == g.nodes[lines[k].id].children
    {
      OwnedUnderHead(g, head, b, head.indent + 2, k, |b|);
      if k > 0 {
        assert Owned(b, k - 1, |b|) == g.nodes[b[k - 1].id].children;
      }
    }
  }

  lemma {:induction false} SubtreeFaithful(g: Graph, m: Marks, id: Id, indent: nat)
    requires Tree(g) && Downward(g) && id in g.nodes
    ensures Faithful(g, Subtree(g, m, id, indent), indent, g.nodes[id].parent, [id])
    decreases |g.order| - Rank(g.order, id), 0
  {
    hide Faithful, Placed, Owned;
    assert ChildrenLater(g, id) && ListsItsChildren(g, id);
    var cs := g.nodes[id].children;
    forall i | 0 <= i < |cs| ensures g.nodes[cs[i]].parent == Some(id) {
      ChildrenHaveParent(g, g.order, id, cs[i]);
    }
    SubtreesFaithful(g, m, cs, Rank(g.order, id) + 1, indent + 2, Some(id));
    FaithfulUnderHead(g, Line(indent, id, MarkOf(m, id)), Subtrees(g, m, cs, Rank(g.order, id) + 1, indent + 2));
  }

  lemma {:induction false} SubtreesFaithful(g: Graph, m: Marks, ids: seq<Id>, floor: nat, indent: nat, p: Option<Id>)
    requires Tree(g) && Downward(g) && floor <= |g.order| && Above(g, ids, floor)
    requires forall i :: 0 <= i < |ids| ==> g.nodes[ids[i]].parent == p
    ensures Faithful(g, Subtrees(g, m, ids, floor, indent), indent, p, ids)
    decreases |g.order| - floor, |ids|
  {
    if ids != [] {
      hide Faithful, Placed, Owned;
      SubtreeFaithful(g, m, ids[0], indent);
      SubtreesFaithful(g, m, ids[1..], floor, indent, p);
      FaithfulAppend(g, Subtree(g, m, ids[0], indent), Subtrees(g, m, ids[1..], floor, indent),
                     indent, p, [ids[0]], ids[1..]);
      assert [ids[0]] + ids[1..] == ids;
    }
  }

  /** What the printer prints below the header. */
  ghost function TreeLines(g: Graph, m: Marks): seq<Line>
    requires Tree(g)
  {
    TreeIsDownward(g);
    Subtree(g, m, g.order[0], 1)
  }

  /** The printed tree determines the tree. For each line, the nearest earlier
      line with a smaller indent is the parent's, and there is none exactly for
      the root; the lines a line owns are its children in creation order. */
  lemma LinesDetermineTree(g: Graph, m: Marks)
    requires Tree(g)
    ensures var lines := TreeLines(g, m);
      forall i :: 0 <= i < |lines| ==>
        && lines[i].id in g.nodes
        && g.nodes[lines[i].id].parent == (if Owner(lines, i) == -1 then None else Some(lines[Owner(lines, i)].id))
        && g.nodes[lines[i].id].children == Owned(lines, i, |lines|)
  {
    TreeIsDownward(g);
    SubtreeFaithful(g, m, g.order[0], 1);
    var lines := TreeLines(g, m);
    forall i | 0 <= i < |lines|
      ensures lines[i].id in g.nodes
      ensures g.nodes[lines[i].id].parent == (if Owner(lines, i) == -1 then None else Some(lines[Owner(lines, i)].id))
      ensures g.nodes[lines[i].id].children == Owned(lines, i, |lines|)
    {
      assert Placed(g, lines, 1, None, i);
      assert Owned(lines, i, |lines|) == g.nodes[lines[i].id].children;
    }
  }

  // ---------- every node once, marks, depth ----------

  lemma {:induction false} OwnedMember(lines: seq<Line>, k: int, n: nat, id: Id) returns (i: nat)
    requires n <= |lines| && id in Owned(lines, k, n)
    ensures i < n && Owner(lines, i) == k && lines[i].id == id
  {
    if id in Owned(lines, k, n - 1) {
      i := OwnedMember(lines, k, n - 1, id);
    } else {
      i := n - 1;
    }
  }

  lemma {:induction false} OwnedAt(lines: seq<Line>, k: int, n: nat, i: nat)
    requires i < n <= |lines| && Owner(lines, i) == k
    ensures |Owned(lines, k, i)| < |Owned(lines, k, n)|
    ensures Owned(lines, k, n)[|Owned(lines, k, i)|] == lines[i].id
  {
    hide Owner;
    if i < n - 1 { OwnedAt(lines, k, n - 1, i); }
  }

  lemma {:induction false} OwnedGrows(lines: seq<Line>, k: int, i: nat, j: nat)
    requires i < j <= |lines| && Owner(lines, i) == k
    ensures |Owned(lines, k, i)| < |Owned(lines, k, j)|
  {
    OwnedAt(lines, k, j, i);
  }

  lemma OwnedDistinct(lines: seq<Line>, k: int, i: nat, j: nat)
    requires i < j < |lines| && Owner(lines, i) == k && Owner(lines, j) == k
    requires Distinct(Owned(lines, k, |lines|))
    ensures lines[i].id != lines[j].id
  {
    hide Owner, Owned;
    OwnedAt(lines, k, |lines|, i);
    OwnedAt(lines, k, |lines|, j);
    OwnedGrows(lines, k, i, j);
  }

  lemma KidsDistinct(g: Graph, id: Id)
    requires Tree(g) && id in g.nodes
    ensures Distinct(g.nodes[id].children)
  {
    assert ListsItsChildren(g, id);
    NoDupMeansDistinct(g.order);
    ChildrenDistinct(g, g.order, id);
  }

  /** Siblings are printed once each. */
  lemma SiblingsOnce(g: Graph, m: Marks, i: nat, j: nat)
    requires Tree(g) && i < j < |TreeLines(g, m)| && Owner(TreeLines(g, m), i) == Owner(TreeLines(g, m), j)
    ensures TreeLines(g, m)[i].id != TreeLines(g, m)[j].id
  {
    hide Owner, Owned, TreeLines;
    var lines := TreeLines(g, m);
    var k := Owner(lines, i);
    if k == -1 {
      RootLines(g, m);
    } else {
      LinesDetermineTree(g, m);
      KidsDistinct(g, lines[k].id);
    }
    OwnedDistinct(lines, k, i, j);
  }

  lemma RootLines(g: Graph, m: Marks)
    requires Tree(g)
    ensures Owned(TreeLines(g, m), -1, |TreeLines(g, m)|) == [g.order[0]]
  {
    TreeIsDownward(g);
    SubtreeFaithful(g, m, g.order[0], 1);
  }

  lemma {:induction false} SameIdSameLine(g: Graph, m: Marks, i: nat, j: nat)
    requires Tree(g) && i < |TreeLines(g, m)| && j < |TreeLines(g, m)|
    requires TreeLines(g, m)[i].id == TreeLines(g, m)[j].id && TreeLines(g, m)[i].id in g.nodes
    ensures i == j
    decreases Rank(g.order, TreeLines(g, m)[i].id)
  {
    hide TreeLines;
    var lines := TreeLines(g, m);
    LinesDetermineTree(g, m);
    var a, b := Owner(lines, i), Owner(lines, j);
    if a != -1 {
      assert ParentEarlier(g, lines[i].id);
      SameIdSameLine(g, m, a, b);
    }
    if i < j { SiblingsOnce(g, m, i, j); }
    if j < i { SiblingsOnce(g, m, j, i); }
  }

  lemma {:induction false} EveryNodePrinted(g: Graph, m: Marks, id: Id) returns (i: nat)
    requires Tree(g) && id in g.nodes
    ensures i < |TreeLines(g, m)| && TreeLines(g, m)[i].id == id
    decreases Rank(g.order, id)
  {
    var lines := TreeLines(g, m);
    if id == g.order[0] {
      TreeIsDownward(g);
      i := 0;
    } else {
      var p := g.nodes[id].parent.value;
      assert ParentEarlier(g, id) && ListsItsChildren(g, p);
      ChildrenHaveParent(g, g.order, p, id);
      var k := EveryNodePrinted(g, m, p);
      LinesDetermineTree(g, m);
      assert id in Owned(lines, k, |lines|);
      i := OwnedMember(lines, k, |lines|, id);
    }
  }

  /** The printer prints every snapshot exactly once and nothing else. */
  lemma EveryNodeOnce(g: Graph, m: Marks)
    requires Tree(g)
    ensures var lines := TreeLines(g, m);
      && (forall i :: 0 <= i < |lines| ==> lines[i].id in g.nodes)
      && (forall id :: id in g.nodes ==> exists i :: 0 <= i < |lines| && lines[i].id == id)
      && (forall i, j :: 0 <= i < j < |lines| ==> lines[i].id != lines[j].id)
  {
    hide TreeLines;
    LinesDetermineTree(g, m);
    var lines := TreeLines(g, m);
    forall id | id in g.nodes ensures exists i :: 0 <= i < |lines| && lines[i].id == id {
      var i := EveryNodePrinted(g, m, id);
    }
    forall i, j | 0 <= i < j < |lines| ensures lines[i].id != lines[j].id {
      if lines[i].id == lines[j].id { SameIdSameLine(g, m, i, j); }
    }
  }

  /** Exactly one line is marked current, that of the current snapshot, and
      exactly one last, that of the last one, when the two differ. */
  lemma MarkedOnce(g: Graph, m: Marks)
    requires Tree(g) && m.current.Some? && m.last.Some? && m.current.value in g.nodes && m.last.value in g.nodes
    ensures var lines := TreeLines(g, m);
      && (exists i :: 0 <= i < |lines| && lines[i].mark == Current && lines[i].id == m.current.value)
      && (m.last != m.current ==> exists i :: 0 <= i < |lines| && lines[i].mark == Last && lines[i].id == m.last.value)
      && (m.last == m.current ==> forall i :: 0 <= i < |lines| ==> lines[i].mark != Last)
      && forall i, j :: 0 <= i < j < |lines| && lines[i].mark == lines[j].mark ==> lines[i].mark == Plain
  {
    EveryNodeOnce(g, m);
    var c := EveryNodePrinted(g, m, m.current.value);
    var l := EveryNodePrinted(g, m, m.last.value);
    TreeIsDownward(g);
    var lines := TreeLines(g, m);
    assert lines[c].mark == MarkOf(m, lines[c].id) && lines[l].mark == MarkOf(m, lines[l].id);
  }

  ghost function Depth(g: Graph, id: Id): nat
    requires Ranked(g) && id in g.nodes
    decreases Rank(g.order, id)
  {
    assert ParentEarlier(g, id);
    if g.nodes[id].parent.None? then 0 else 1 + Depth(g, g.nodes[id].parent.value)
  }

  lemma {:induction false} IndentIsDepth(g: Graph, m: Marks, i: nat)
    requires Tree(g) && i < |TreeLines(g, m)|
    ensures TreeLines(g, m)[i].id in g.nodes
    ensures TreeLines(g, m)[i].indent == 1 + 2 * Depth(g, TreeLines(g, m)[i].id)
  {
    TreeIsDownward(g);
    SubtreeFaithful(g, m, g.order[0], 1);
    var lines := TreeLines(g, m);
    assert Placed(g, lines, 1, None, i);
    if Owner(lines, i) >= 0 { IndentIsDepth(g, m, Owner(lines, i)); }
  }

  // ---------- the text ----------

  function Spaces(n: nat): (t: string)
    ensures |t| == n && forall i :: 0 <= i < n ==> t[i] == ' '
  {
    seq(n, _ => ' ')
  }

  function Suffix(mark: Mark): string {
    match mark case Plain => "" case Current => " (current)" case Last => " (last)"
  }

  function LineText(l: Line): string {
    Spaces(l.indent) + "- " + l.id.text + Suffix(l.mark)
  }

  /** The number of characters before the first that is (or is not) a space. */
  function Until(t: string, space: bool): (n: nat)
    ensures n <= |t| && (forall i :: 0 <= i < n ==> (t[i] == ' ') != space) && (n < |t| ==> (t[n] == ' ') == space)
  {
    if t == "" || (t[0] == ' ') == space then 0 else 1 + Until(t[1..], space)
  }

  /** Reading one printed line back. */
  function ReadLine(t: string): Option<Line> {
    var n := Until(t, false);
    if |t| < n + 2 || t[n..n + 2] != "- " then None
    else
      var body := t[n + 2..];
      var k := Until(body, true);
      if body[k..] == Suffix(Plain) then Some(Line(n, Id(body[..k]), Plain))
      else if body[k..] == Suffix(Current) then Some(Line(n, Id(body[..k]), Current))
      else if body[k..] == Suffix(Last) then Some(Line(n, Id(body[..k]), Last))
      else None
  }

  /** Ids without spaces and line breaks, as all generated ones are. */
  predicate Clean(id: Id) {
    OneLine(id.text) && forall i :: 0 <= i < |id.text| ==> id.text[i] != ' '
  }

  lemma UntilIs(t: string, space: bool, n: nat)
    requires n <= |t| && (forall i :: 0 <= i < n ==> (t[i] == ' ') != space) && (n < |t| ==> (t[n] == ' ') == space)
    ensures Until(t, space) == n
  {
  }

  lemma BodyParts(id: Id, mark: Mark)
    requires Clean(id)
    ensures var body := id.text + Suffix(mark); var k := Until(body, true);
      k == |id.text| && body[..k] == id.text && body[k..] == Suffix(mark)
  {
    var body := id.text + Suffix(mark);
    assert mark != Plain ==> body[|id.text|] == Suffix(mark)[0] == ' ';
    UntilIs(body, true, |id.text|);
  }

  lemma LineParts(n: nat, body: string)
    ensures var t := Spaces(n) + "- " + body;
      Until(t, false) == n && |t| >= n + 2 && t[n..n + 2] == "- " && t[n + 2..] == body
  {
    var t := Spaces(n) + "- " + body;
    assert t[n] == '-';
    UntilIs(t, false, n);
  }

  lemma SuffixesDiffer(a: Mark, b: Mark)
    ensures Suffix(a) == Suffix(b) <==> a == b
  {
    assert |Suffix(Plain)| == 0 && |Suffix(Current)| == 10 && |Suffix(Last)| == 7;
  }

  /** Reading a line back gives the line. */
  lemma LineRoundTrip(l: Line)
    requires Clean(l.id)
    ensures ReadLine(LineText(l)) == Some(l)
  {
    hide Suffix, Until, Spaces;
    var body := l.id.text + Suffix(l.mark);
    assert LineText(l) == Spaces(l.indent) + "- " + body;
    LineParts(l.indent, body);
    BodyParts(l.id, l.mark);
    SuffixesDiffer(l.mark, Plain);
    SuffixesDiffer(l.mark, Current);
    SuffixesDiffer(l.mark, Last);
  }

  lemma LineTextIsOneLine(l: Line)
    requires Clean(l.id)
    ensures OneLine(LineText(l))
  {
  }

  function Texts(lines: seq<Line>): seq<string> {
    seq(|lines|, i requires 0 <= i < |lines| => LineText(lines[i]))
  }

  const HEADER := "Snapshot Tree:"

  lemma HeaderIsOneLine()
    ensures OneLine(HEADER)
  {
  }

  /** The roots, in creation order. */
  function Roots(g: Graph, order: seq<Id>): seq<Id>
    requires forall i :: 0 <= i < |order| ==> order[i] in g.nodes
  {
    if order == [] then []
    else
      Roots(g, order[..|order| - 1]) + if g.nodes[order[|order| - 1]].parent.None? then [order[|order| - 1]] else []
  }

  lemma {:induction false} RootsInOrder(g: Graph, order: seq<Id>)
    requires forall i :: 0 <= i < |order| ==> order[i] in g.nodes
    ensures forall i :: 0 <= i < |Roots(g, order)| ==> Roots(g, order)[i] in order
  {
    if order != [] { RootsInOrder(g, order[..|order| - 1]); }
  }

  /** The text `print_snapshot_tree` returns. */
  ghost function TreeText(g: Graph, m: Marks): string
    requires Downward(g)
  {
    RootsInOrder(g, g.order);
    if Roots(g, g.order) == [] then "No snapshot tree available.\n"
    else HEADER + "\n" + JoinLines(Texts(Subtrees(g, m, Roots(g, g.order), 0, 1)))
  }

  lemma {:induction false} OneRoot(g: Graph, order: seq<Id>)
    requires Tree(g) && order <= g.order && order != []
    ensures Roots(g, order) == [g.order[0]]
  {
    var n := |order| - 1;
    if n == 0 {
      assert Roots(g, order[..0]) == [];
    } else {
      OneRoot(g, order[..n]);
      assert Rank(g.order, g.order[0]) == 0 && Rank(g.order, g.order[n]) == n;
    }
  }

  /** For a tree the text is the header and the lines of the one root. */
  lemma TextOfTree(g: Graph, m: Marks)
    requires Tree(g)
    ensures Downward(g)
    ensures TreeText(g, m) == HEADER + "\n" + JoinLines(Texts(TreeLines(g, m)))
  {
    TreeIsDownward(g);
    OneRoot(g, g.order);
    var root := [g.order[0]];
    assert Subtrees(g, m, root[1..], 0, 1) == [];
    assert Subtrees(g, m, root, 0, 1) == TreeLines(g, m);
  }

  /** The text can be read back: header, then each line. */
  lemma TextGivesLines(g: Graph, m: Marks)
    requires Tree(g) && forall id :: id in g.nodes ==> Clean(id)
    ensures Downward(g)
    ensures SplitLines(TreeText(g, m)) == [HEADER] + Texts(TreeLines(g, m))
  {
    hide TreeLines, TreeText, LineText, SplitLines, JoinLines, Owner, Owned, OneLine, HEADER;
    TextOfTree(g, m);
    LinesDetermineTree(g, m);
    HeaderIsOneLine();
    var lines := TreeLines(g, m);
    var texts := Texts(lines);
    forall i | 0 <= i < |texts| ensures OneLine(texts[i]) { LineTextIsOneLine(lines[i]); }
    SplitJoinAll(texts);
    SplitFirst(HEADER, JoinLines(texts));
  }

  /** The printed line of a node: one space and two more per level, a dash, the
      id, and what the line says about the current and the last snapshot. */
  ghost predicate PrintedAs(g: Graph, m: Marks, id: Id, t: string)
    requires Ranked(g) && id in g.nodes
  {
    var d := 1 + 2 * Depth(g, id);
    && |t| >= d && (forall k :: 0 <= k < d ==> t[k] == ' ')
    && t[d..] == "- " + id.text
         + (if m.current == Some(id) then " (current)" else if m.last == Some(id) then " (last)" else "")
  }

  lemma LineIsPrinted(g: Graph, m: Marks, l: Line)
    requires Ranked(g) && l.id in g.nodes && l.indent == 1 + 2 * Depth(g, l.id) && l.mark == MarkOf(m, l.id)
    ensures PrintedAs(g, m, l.id, LineText(l))
  {
    hide Ranked, Depth, Spaces;
    var t := LineText(l);
    assert t == Spaces(l.indent) + ("- " + l.id.text + Suffix(l.mark));
    assert forall k :: 0 <= k < l.indent ==> t[k] == Spaces(l.indent)[k];
    assert t[l.indent..] == "- " + l.id.text + Suffix(l.mark);
  }

  /** The lines of a printed tree: the heading, then one line per node. */
  ghost predicate Printed(g: Graph, m: Marks, text: string)
    requires Tree(g)
  {
    var ls, lines := SplitLines(text), TreeLines(g, m);
    && |ls| == 1 + |lines| && ls[0] == "Snapshot Tree:"
    && forall i :: 0 <= i < |lines| ==> lines[i].id in g.nodes && PrintedAs(g, m, lines[i].id, ls[i + 1])
  }

  /** What the text says, line by line: the heading, and for each node, in the
      order of `LinesDetermineTree`, its depth, its id and its mark. */
  lemma TextIsPrinted(g: Graph, m: Marks)
    requires Tree(g) && forall id :: id in g.nodes ==> Clean(id)
    ensures Downward(g) && Printed(g, m, TreeText(g, m))
  {
    hide TreeLines, TreeText, LineText, SplitLines, JoinLines, Owner, Owned, Clean, Tree, PrintedAs, Depth;
    TextGivesLines(g, m);
    TreeIsRanked(g);
    var lines := TreeLines(g, m);
    MarksOfLines(g, m);
    forall i | 0 <= i < |lines|
      ensures lines[i].id in g.nodes && PrintedAs(g, m, lines[i].id, LineText(lines[i]))
    {
      IndentIsDepth(g, m, i);
      LineIsPrinted(g, m, lines[i]);
    }
  }

  lemma TreeIsRanked(g: Graph)
    requires Tree(g)
    ensures Ranked(g)
  {
  }

  lemma MarksOfLines(g: Graph, m: Marks)
    requires Tree(g)
    ensures var lines := TreeLines(g, m); forall i :: 0 <= i < |lines| ==> lines[i].mark == MarkOf(m, lines[i].id)
  {
    hide Subtree, MarkOf;
    TreeIsDownward(g);
  }

  /** Every node has its line in the text. */
  lemma EveryNodeHasItsLine(g: Graph, m: Marks, id: Id)
    requires Tree(g) && (forall x :: x in g.nodes ==> Clean(x)) && id in g.nodes
    ensures Downward(g)
    ensures var ls := SplitLines(TreeText(g, m)); exists i :: 1 <= i < |ls| && PrintedAs(g, m, id, ls[i])
  {
    hide TreeLines, TreeText, SplitLines, Clean, Tree, PrintedAs;
    TextIsPrinted(g, m);
    TreeIsRanked(g);
    var i := EveryNodePrinted(g, m, id);
    assert PrintedAs(g, m, id, SplitLines(TreeText(g, m))[i + 1]);
  }

  lemma SameTextSameLines(g: Graph, m: Marks, h: Graph, k: Marks)
    requires Tree(g) && (forall id :: id in g.nodes ==> Clean(id))
    requires Tree(h) && (forall id :: id in h.nodes ==> Clean(id))
    requires Downward(g) && Downward(h) && TreeText(g, m) == TreeText(h, k)
    ensures TreeLines(g, m) == TreeLines(h, k)
  {
    hide TreeLines, TreeText, LineText, ReadLine, Owner, Owned, NoDup, Keyed, ParentEarlier, ChildrenIn, SplitLines;
    var a, b := TreeLines(g, m), TreeLines(h, k);
    LinesDetermineTree(g, m);
    LinesDetermineTree(h, k);
    TextGivesLines(g, m);
    TextGivesLines(h, k);
    assert Texts(a) == SplitLines(TreeText(g, m))[1..] == Texts(b);
    forall i | 0 <= i < |a| ensures a[i] == b[i] {
      assert Texts(a)[i] == LineText(a[i]) && Texts(b)[i] == LineText(b[i]);
      LineRoundTrip(a[i]);
      LineRoundTrip(b[i]);
    }
  }

  lemma SameLinesSameTree(g: Graph, m: Marks, h: Graph, k: Marks)
    requires Tree(g) && Tree(h) && TreeLines(g, m) == TreeLines(h, k)
    ensures g.nodes.Keys == h.nodes.Keys
    ensures forall id :: id in g.nodes ==>
      g.nodes[id].parent == h.nodes[id].parent && g.nodes[id].children == h.nodes[id].children
  {
    hide TreeLines, Owner, Owned, NoDup, Keyed, ParentEarlier, ChildrenIn;
    LinesDetermineTree(g, m);
    LinesDetermineTree(h, k);
    EveryNodeOnce(g, m);
    EveryNodeOnce(h, k);
  }

  /** Two trees that print the same text have the same nodes, parents and
      children lists, in the same order, and the same marks. */
  lemma TextDeterminesTree(g: Graph, m: Marks, h: Graph, k: Marks)
    requires Tree(g) && (forall id :: id in g.nodes ==> Clean(id))
    requires Tree(h) && (forall id :: id in h.nodes ==> Clean(id))
    requires Downward(g) && Downward(h) && TreeText(g, m) == TreeText(h, k)
    ensures TreeLines(g, m) == TreeLines(h, k)
    ensures g.nodes.Keys == h.nodes.Keys
    ensures forall id :: id in g.nodes ==>
      g.nodes[id].parent == h.nodes[id].parent && g.nodes[id].children == h.nodes[id].children
  {
    hide *;
    SameTextSameLines(g, m, h, k);
    SameLinesSameTree(g, m, h, k);
  }
}
