/** Rendering a flat list of items as a tree. */
module ChecklistTree {
  import opened Basics
  import opened MemoryTypes
  import opened ParentChains
  import opened Checklists
  import opened Sorting

  datatype Tree = Node(item: Item, children: seq<Tree>)

  /** The map of the items by id: insertion order, and the last item of each id. */
  datatype Graph = Graph(order: seq<string>, nodes: map<string, Item>) {
    ghost predicate Valid() {
      && NoDup(order)
      && (forall id :: id in order <==> id in nodes)
      && (forall id :: id in nodes ==> nodes[id].id == id)
    }

    function Put(item: Item): Graph {
      Graph(if item.id in nodes then order else order + [item.id], nodes[item.id := item])
    }

    function Links(): Parents {
      map id | id in nodes && HasParent(id) :: nodes[id].parentId.value
    }

    predicate HasParent(id: string)
      requires id in nodes
    {
      nodes[id].parentId.Some? && nodes[id].parentId.value != "" && nodes[id].parentId.value in nodes
    }
  }

  function Indexed(items: seq<Item>): (g: Graph)
    ensures g.Valid() && g.nodes.Keys == Ids(items)
  {
    if items == [] then Graph([], map[])
    else
      var g := Indexed(items[..|items| - 1]);
      var last := items[|items| - 1];
      assert items == items[..|items| - 1] + [last];
      assert Ids(items) == Ids(items[..|items| - 1]) + {last.id};
      g.Put(last)
  }

  // ---- Stable sort by ordinal ----

  function OrdinalOf(nodes: map<string, Item>, id: string): int {
    if id in nodes then nodes[id].ordinal else 0
  }

  function OrdinalLeq(nodes: map<string, Item>): Leq<string> {
    (a: string, b: string) => OrdinalOf(nodes, a) <= OrdinalOf(nodes, b)
  }

  function SortByOrdinal(nodes: map<string, Item>, ids: seq<string>): (r: seq<string>)
    ensures multiset(r) == multiset(ids)
  {
    SortBy(OrdinalLeq(nodes), ids)
  }

  // ---- The tree ----

  function Filtered(order: seq<string>, keep: set<string>): (r: seq<string>)
    ensures forall x :: x in r <==> x in order && x in keep
  {
    if order == [] then []
    else
      var rest := Filtered(order[1..], keep);
      if order[0] in keep then [order[0]] + rest else rest
  }

  function ChildSet(g: Graph, parent: string): set<string> {
    set id | id in g.Links() && g.Links()[id] == parent
  }

  function RootSet(g: Graph): set<string> {
    g.nodes.Keys - g.Links().Keys
  }

  /** Siblings in the order in which they are shown. */
  function Siblings(g: Graph, ids: set<string>): (r: seq<string>)
    requires g.Valid() && ids <= g.nodes.Keys
    ensures forall x :: x in r <==> x in ids
  {
    var r := SortByOrdinal(g.nodes, Filtered(g.order, ids));
    assert forall x :: x in r <==> x in multiset(r);
    r
  }

  ghost predicate AtLevel(g: Graph, ids: seq<string>, level: nat) {
    g.Valid() && level <= |g.Links()| + 1
    && forall x :: x in ids ==> x in g.nodes && RootAbove(g.Links(), x, level)
  }

  lemma ChildrenAreBelow(g: Graph, id: string, level: nat)
    requires AtLevel(g, [id], level)
    ensures level <= |g.Links()| && AtLevel(g, Siblings(g, ChildSet(g, id)), level + 1)
  {
    assert id in [id];
    RootIsNear(g.Links(), id, level);
    forall x | x in Siblings(g, ChildSet(g, id)) ensures RootAbove(g.Links(), x, level + 1) {
      assert Up(g.Links(), x, level + 1) == Up(g.Links(), id, level);
    }
  }

  lemma RootsAreRoots(g: Graph)
    requires g.Valid()
    ensures AtLevel(g, Siblings(g, RootSet(g)), 0)
  {
  }

  function Build(g: Graph, id: string, level: nat): Tree
    requires AtLevel(g, [id], level)
    decreases |g.Links()| + 1 - level, 0
  {
    assert id in [id];
    ChildrenAreBelow(g, id, level);
    Node(g.nodes[id], BuildAll(g, Siblings(g, ChildSet(g, id)), level + 1))
  }

  function BuildAll(g: Graph, ids: seq<string>, level: nat): seq<Tree>
    requires AtLevel(g, ids, level)
    decreases |g.Links()| + 1 - level, |ids| + 1
  {
    if ids == [] then [] else [Build(g, ids[0], level)] + BuildAll(g, ids[1..], level)
  }

  function Rendered(items: seq<Item>): seq<Tree> {
    var g := Indexed(items);
    RootsAreRoots(g);
    BuildAll(g, Siblings(g, RootSet(g)), 0)
  }

  // ---- The renderer ----

  method RenderChecklistTree(items: seq<Item>) returns (trees: seq<Tree>)
    ensures trees == Rendered(items)
  {
    var byId := Graph([], map[]);
    for i := 0 to |items|
      invariant byId == Indexed(items[..i])
    {
      assert items[..i + 1][..i] == items[..i];
      byId := byId.Put(items[i]);
    }
    assert items[..|items|] == items;
    var children, roots := LinkChildren(byId);
    RootsAreRoots(byId);
    assert AtLevel(byId, roots, 0);
    trees := SortSiblings(byId, children, roots, 0);
  }

  /** Push every node to its parent's children, or to the roots. */
  method LinkChildren(g: Graph) returns (children: map<string, seq<string>>, roots: seq<string>)
    requires g.Valid()
    ensures Linked(g, children)
    ensures roots == Filtered(g.order, RootSet(g))
  {
    hide Filtered, ChildSet, RootSet, Graph.Links, Graph.HasParent;
    FilteredNone();
    children := map id | id in g.nodes :: [];
    roots := [];
    assert g.order[..0] == [];
    for i := 0 to |g.order|
      invariant children.Keys == g.nodes.Keys
      invariant forall id :: id in children ==> children[id] == Filtered(g.order[..i], ChildSet(g, id))
      invariant roots == Filtered(g.order[..i], RootSet(g))
    {
      var id := g.order[i];
      FilteredNext(g.order, i);
      LinkedOnce(g, id);
      if g.HasParent(id) {
        var parent := g.nodes[id].parentId.value;
        children := children[parent := children[parent] + [id]];
      } else {
        roots := roots + [id];
      }
    }
    assert g.order[..|g.order|] == g.order;
  }

  lemma LinkedOnce(g: Graph, id: string)
    requires g.Valid() && id in g.order
    ensures id in g.nodes
    ensures id in RootSet(g) <==> !g.HasParent(id)
    ensures g.HasParent(id) ==> g.nodes[id].parentId.Some? && g.nodes[id].parentId.value in g.nodes
    ensures forall parent :: id in ChildSet(g, parent) <==> g.HasParent(id) && g.nodes[id].parentId.value == parent
  {
  }

  lemma FilteredNone()
    ensures forall keep :: Filtered([], keep) == []
  {
  }

  /** One more element goes to exactly the filters that keep it. */
  lemma FilteredNext(order: seq<string>, i: nat)
    requires i < |order|
    ensures forall keep :: Filtered(order[..i + 1], keep) ==
              Filtered(order[..i], keep) + if order[i] in keep then [order[i]] else []
  {
    forall keep ensures Filtered(order[..i + 1], keep) ==
              Filtered(order[..i], keep) + if order[i] in keep then [order[i]] else []
    {
      FilteredAppend(order[..i], order[i], keep);
      assert order[..i + 1] == order[..i] + [order[i]];
    }
  }

  lemma {:induction false} FilteredAppend(order: seq<string>, x: string, keep: set<string>)
    ensures Filtered(order + [x], keep) == Filtered(order, keep) + if x in keep then [x] else []
  {
    if order != [] {
      FilteredAppend(order[1..], x, keep);
      assert (order + [x])[1..] == order[1..] + [x];
    } else {
      assert [x][1..] == [];
    }
  }

  lemma {:induction false} BuildAllAppend(g: Graph, ids: seq<string>, x: string, level: nat)
    requires AtLevel(g, ids, level) && AtLevel(g, [x], level) && AtLevel(g, ids + [x], level)
    ensures BuildAll(g, ids + [x], level) == BuildAll(g, ids, level) + [Build(g, x, level)]
    decreases ids
  {
    if ids == [] {
      assert [] + [x] == [x] && [x][1..] == [];
    } else {
      TailLevel(g, ids, x, level);
      hide AtLevel, Build;
      assert (ids + [x])[1..] == ids[1..] + [x];
      BuildAllAppend(g, ids[1..], x, level);
    }
  }

  lemma TailLevel(g: Graph, ids: seq<string>, x: string, level: nat)
    requires AtLevel(g, ids, level) && AtLevel(g, [x], level) && ids != []
    ensures AtLevel(g, ids[1..], level) && AtLevel(g, ids[1..] + [x], level) && AtLevel(g, [ids[0]], level)
  {
    assert x in [x];
  }

  ghost predicate Linked(g: Graph, children: map<string, seq<string>>) {
    && children.Keys == g.nodes.Keys
    && forall id :: id in children ==> children[id] == Filtered(g.order, ChildSet(g, id))
  }

  method SortSiblings(g: Graph, children: map<string, seq<string>>, ids: seq<string>, ghost level: nat)
    returns (trees: seq<Tree>)
    requires AtLevel(g, ids, level) && Linked(g, children)
    ensures AtLevel(g, SortByOrdinal(g.nodes, ids), level)
    ensures trees == BuildAll(g, SortByOrdinal(g.nodes, ids), level)
    decreases |g.Links()| + 1 - level, 1
  {
    hide *;
    SortKeepsLevel(g, ids, level);
    var nodes := SortByOrdinal(g.nodes, ids);
    trees := [];
    PrefixStart(g, nodes, level);
    for i := 0 to |nodes|
      invariant BuiltPrefix(g, nodes, level, i, trees)
    {
      PrefixNext(g, nodes, level, i, trees);
      var tree := SortedNode(g, children, nodes[i], level);
      trees := trees + [tree];
    }
    WholePrefix(g, nodes, level, trees);
  }

  /** A node whose children have been sorted, all the way down. */
  method SortedNode(g: Graph, children: map<string, seq<string>>, id: string, ghost level: nat) returns (tree: Tree)
    requires AtLevel(g, [id], level) && level <= |g.Links()| && Linked(g, children)
    ensures tree == Build(g, id, level)
    decreases |g.Links()| + 1 - level, 0
  {
    ChildrenAt(g, children, id, level);
    hide *;
    var kids := SortSiblings(g, children, children[id], level + 1);
    BuildIs(g, id, level, children[id], kids);
    tree := Node(g.nodes[id], kids);
  }

  ghost predicate BuiltPrefix(g: Graph, ids: seq<string>, level: nat, i: nat, trees: seq<Tree>) {
    AtLevel(g, ids, level) && i <= |ids| && AtLevel(g, ids[..i], level) && trees == BuildAll(g, ids[..i], level)
  }

  lemma PrefixStart(g: Graph, ids: seq<string>, level: nat)
    requires AtLevel(g, ids, level)
    ensures BuiltPrefix(g, ids, level, 0, [])
  {
  }

  lemma PrefixNext(g: Graph, ids: seq<string>, level: nat, i: nat, trees: seq<Tree>)
    requires BuiltPrefix(g, ids, level, i, trees) && i < |ids|
    ensures level <= |g.Links()| && AtLevel(g, [ids[i]], level)
    ensures BuiltPrefix(g, ids, level, i + 1, trees + [Build(g, ids[i], level)])
  {
    RootIsNear(g.Links(), ids[i], level);
    assert ids[..i + 1] == ids[..i] + [ids[i]];
    hide RootAbove;
    BuildAllAppend(g, ids[..i], ids[i], level);
  }

  lemma WholePrefix(g: Graph, ids: seq<string>, level: nat, trees: seq<Tree>)
    requires BuiltPrefix(g, ids, level, |ids|, trees)
    ensures trees == BuildAll(g, ids, level)
  {
    assert ids[..|ids|] == ids;
  }

  lemma SortKeepsLevel(g: Graph, ids: seq<string>, level: nat)
    requires AtLevel(g, ids, level)
    ensures forall x :: x in ids ==> x in g.nodes
    ensures AtLevel(g, SortByOrdinal(g.nodes, ids), level)
  {
    var nodes := SortByOrdinal(g.nodes, ids);
    assert forall x :: x in nodes <==> x in multiset(nodes);
  }

  lemma ChildrenAt(g: Graph, children: map<string, seq<string>>, id: string, level: nat)
    requires AtLevel(g, [id], level) && Linked(g, children)
    ensures id in children && children[id] == Filtered(g.order, ChildSet(g, id))
    ensures id in g.nodes && AtLevel(g, children[id], level + 1)
  {
    assert id in [id];
    ChildrenAreBelow(g, id, level);
  }

  lemma BuildIs(g: Graph, id: string, level: nat, ids: seq<string>, kids: seq<Tree>)
    requires AtLevel(g, [id], level) && id in g.nodes
    requires ids == Filtered(g.order, ChildSet(g, id)) && AtLevel(g, ids, level + 1)
    requires AtLevel(g, SortByOrdinal(g.nodes, ids), level + 1)
    requires kids == BuildAll(g, SortByOrdinal(g.nodes, ids), level + 1)
    ensures Build(g, id, level) == Node(g.nodes[id], kids)
  {
  }
}
