/** The rendered tree holds every item that hangs under a root, once, where it belongs. */
module ChecklistTreeTheorems {
  import opened Basics
  import opened MemoryTypes
  import opened ParentChains
  import opened Checklists
  import opened ChecklistTree
  import opened Sorting

  /** All items of a tree, a node before its children. */
  function Flatten(tree: Tree): seq<Item> {
    [tree.item] + FlattenAll(tree.children)
  }

  function FlattenAll(trees: seq<Tree>): seq<Item> {
    if trees == [] then [] else Flatten(trees[0]) + FlattenAll(trees[1..])
  }

  /** `id` is one of `tops` or hangs under one. */
  ghost predicate Under(p: Parents, id: string, tops: seq<string>) {
    exists n: nat :: Up(p, id, n).Some? && Up(p, id, n).value in tops
  }

  ghost predicate Shown(g: Graph, x: Item) {
    x.id in g.nodes && x == g.nodes[x.id]
  }

  /** A node as it was built. */
  lemma Built(g: Graph, id: string, level: nat)
    requires AtLevel(g, [id], level)
    ensures var kids := Siblings(g, ChildSet(g, id));
      && id in g.nodes && level <= |g.Links()| && AtLevel(g, kids, level + 1)
      && Build(g, id, level) == Node(g.nodes[id], BuildAll(g, kids, level + 1))
  {
    assert id in [id];
    ChildrenAreBelow(g, id, level);
  }

  lemma UnderOne(g: Graph, id: string, parent: string, kids: seq<string>)
    requires g.Valid() && Under(g.Links(), id, kids)
    requires forall x :: x in kids ==> x in ChildSet(g, parent)
    ensures exists n: nat :: n > 0 && Up(g.Links(), id, n) == Some(parent)
  {
    var n: nat :| Up(g.Links(), id, n).Some? && Up(g.Links(), id, n).value in kids;
    UpOne(g.Links(), id, n);
  }

  /** Nothing is shown that is not an item, or that belongs elsewhere. */
  lemma {:induction false} ShownBelongs(g: Graph, ids: seq<string>, level: nat, x: Item)
    requires AtLevel(g, ids, level) && x in FlattenAll(BuildAll(g, ids, level))
    ensures Shown(g, x) && Under(g.Links(), x.id, ids)
    decreases |g.Links()| + 1 - level, |ids|
  {
    hide *;
    BuildParts(g, ids, level, x);
    var id, rest := ids[0], ids[1..];
    var kids := Siblings(g, ChildSet(g, id));
    if x == g.nodes[id] {
      assert x.id == id && id in ids;
      UnderTop(g.Links(), x.id, ids);
    } else if x in FlattenAll(BuildAll(g, kids, level + 1)) {
      ShownBelongs(g, kids, level + 1, x);
      UnderOne(g, x.id, id, kids);
      UnderParent(g.Links(), x.id, id, ids);
    } else {
      ShownBelongs(g, rest, level, x);
      UnderMore(g.Links(), x.id, rest, ids);
    }
  }

  lemma UnderTop(p: Parents, id: string, tops: seq<string>)
    requires id in tops
    ensures Under(p, id, tops)
  {
    assert Up(p, id, 0) == Some(id);
  }

  lemma UnderParent(p: Parents, id: string, parent: string, tops: seq<string>)
    requires parent in tops && exists n: nat :: n > 0 && Up(p, id, n) == Some(parent)
    ensures Under(p, id, tops)
  {
  }

  lemma UnderMore(p: Parents, id: string, tops: seq<string>, more: seq<string>)
    requires Under(p, id, tops) && forall x :: x in tops ==> x in more
    ensures Under(p, id, more)
  {
  }

  /** What is shown under several nodes: the first of them, what is under it, or what is under the others. */
  lemma BuildParts(g: Graph, ids: seq<string>, level: nat, x: Item)
    requires AtLevel(g, ids, level) && x in FlattenAll(BuildAll(g, ids, level))
    ensures ids != [] && AtLevel(g, ids[1..], level) && AtLevel(g, [ids[0]], level)
    ensures ids[0] in g.nodes && g.nodes[ids[0]].id == ids[0] && g.Valid() && ChildSet(g, ids[0]) <= g.nodes.Keys
    ensures var kids := Siblings(g, ChildSet(g, ids[0]));
      && AtLevel(g, kids, level + 1) && (forall y :: y in kids ==> y in ChildSet(g, ids[0]))
      && (x == g.nodes[ids[0]] || x in FlattenAll(BuildAll(g, kids, level + 1))
          || x in FlattenAll(BuildAll(g, ids[1..], level)))
      && |g.Links()| >= level
    ensures Shown(g, g.nodes[ids[0]])
  {
    TopParts(g, ids, level);
    Built(g, ids[0], level);
    ValidLevel(g, ids[0], level);
    hide Build, AtLevel, Siblings;
    FlattenParts(Build(g, ids[0], level), BuildAll(g, ids[1..], level), x);
  }

  lemma TopParts(g: Graph, ids: seq<string>, level: nat)
    requires AtLevel(g, ids, level) && ids != []
    ensures AtLevel(g, ids[1..], level) && AtLevel(g, [ids[0]], level)
    ensures BuildAll(g, ids, level) == [Build(g, ids[0], level)] + BuildAll(g, ids[1..], level)
  {
    assert AtLevel(g, ids[1..], level) && AtLevel(g, [ids[0]], level);
  }

  lemma FlattenParts(tree: Tree, rest: seq<Tree>, x: Item)
    requires x in FlattenAll([tree] + rest)
    ensures x == tree.item || x in FlattenAll(tree.children) || x in FlattenAll(rest)
  {
    assert ([tree] + rest)[1..] == rest;
  }

  /** Whatever hangs under one of the nodes is shown. */
  lemma {:induction false} BelongsShown(g: Graph, ids: seq<string>, level: nat, y: string, n: nat)
    requires AtLevel(g, ids, level) && y in g.nodes
    requires Up(g.Links(), y, n).Some? && Up(g.Links(), y, n).value in ids
    ensures g.nodes[y] in FlattenAll(BuildAll(g, ids, level))
    decreases n, |ids|
  {
    var id := ids[0];
    if Up(g.Links(), y, n).value == id {
      NodeShows(g, id, level, y, n);
      hide AtLevel, Build, Flatten;
    } else {
      assert AtLevel(g, ids[1..], level);
      hide AtLevel, Build, Flatten;
      BelongsShown(g, ids[1..], level, y, n);
    }
  }

  lemma {:induction false} NodeShows(g: Graph, id: string, level: nat, y: string, n: nat)
    requires AtLevel(g, [id], level) && y in g.nodes && Up(g.Links(), y, n) == Some(id)
    ensures g.nodes[y] in Flatten(Build(g, id, level))
    decreases n, 0
  {
    FlatNode(g, id, level);
    if n > 0 {
      hide Build, BuildAll, AtLevel, Siblings, Up, Flatten, FlattenAll;
      OneStepBelow(g, y, n, id);
      BelongsShown(g, Siblings(g, ChildSet(g, id)), level + 1, y, n - 1);
    }
  }

  lemma FlatNode(g: Graph, id: string, level: nat)
    requires AtLevel(g, [id], level)
    ensures var kids := Siblings(g, ChildSet(g, id));
      && g.Valid() && id in g.nodes && g.nodes[id].id == id && AtLevel(g, kids, level + 1)
      && g.nodes[id] in Flatten(Build(g, id, level))
      && forall x :: x in FlattenAll(BuildAll(g, kids, level + 1)) ==> x in Flatten(Build(g, id, level))
  {
    Built(g, id, level);
    ValidLevel(g, id, level);
    hide Build, BuildAll, AtLevel, Siblings, FlattenAll;
  }

  lemma OneStepBelow(g: Graph, y: string, n: nat, id: string)
    requires g.Valid() && n > 0 && Up(g.Links(), y, n) == Some(id)
    ensures Up(g.Links(), y, n - 1).Some? && Up(g.Links(), y, n - 1).value in Siblings(g, ChildSet(g, id))
  {
    UpBefore(g.Links(), y, n - 1, n);
    UpOne(g.Links(), y, n - 1);
    SiblingsAre(g, ChildSet(g, id));
  }

  lemma SiblingsAre(g: Graph, ids: set<string>)
    requires g.Valid() && ids <= g.nodes.Keys
    ensures forall x :: x in Siblings(g, ids) <==> x in ids
  {
  }

  // ---- Nothing is shown twice ----

  lemma DistinctConcat(a: seq<Item>, b: seq<Item>)
    requires DistinctIds(a) && DistinctIds(b)
    requires forall x, y :: x in a && y in b ==> x.id != y.id
    ensures DistinctIds(a + b)
  {
  }

  /** Everything under one level is at a level of its own. */
  lemma LevelsAdd(p: Parents, x: string, n: nat, id: string, level: nat)
    requires Up(p, x, n) == Some(id) && RootAbove(p, id, level)
    ensures RootAbove(p, x, n + level)
  {
    UpThenUp(p, x, n, level);
  }

  /** Two nodes of one level have nothing under them in common. */
  lemma LevelsApart(g: Graph, x: string, a: string, b: seq<string>, level: nat)
    requires AtLevel(g, [a], level) && AtLevel(g, b, level)
    requires Under(g.Links(), x, [a]) && Under(g.Links(), x, b)
    ensures a in b
  {
    var p := g.Links();
    var n: nat :| Up(p, x, n).Some? && Up(p, x, n).value in [a];
    var m: nat :| Up(p, x, m).Some? && Up(p, x, m).value in b;
    LevelsAdd(p, x, n, a, level);
    LevelsAdd(p, x, m, Up(p, x, m).value, level);
    RootIsUnique(p, x, n + level, m + level);
  }

  lemma {:induction false} ShownOnce(g: Graph, ids: seq<string>, level: nat)
    requires AtLevel(g, ids, level) && NoDup(ids)
    ensures DistinctIds(FlattenAll(BuildAll(g, ids, level)))
    decreases |g.Links()| + 1 - level, |ids|
  {
    if ids != [] {
      var id, rest := ids[0], ids[1..];
      var first := Flatten(Build(g, id, level));
      var others := FlattenAll(BuildAll(g, rest, level));
      NodeShownOnce(g, id, level);
      ShownOnce(g, rest, level);
      forall x, y | x in first && y in others ensures x.id != y.id {
        if x.id == y.id {
          FirstBelongs(g, id, level, x);
          ShownBelongs(g, rest, level, y);
          LevelsApart(g, x.id, id, rest, level);
        }
      }
      DistinctConcat(first, others);
    }
  }

  lemma FirstBelongs(g: Graph, id: string, level: nat, x: Item)
    requires AtLevel(g, [id], level) && x in Flatten(Build(g, id, level))
    ensures Under(g.Links(), x.id, [id])
  {
    assert BuildAll(g, [id], level) == [Build(g, id, level)] by {
      assert [id][1..] == [];
    }
    ShownBelongs(g, [id], level, x);
  }

  lemma {:induction false} NodeShownOnce(g: Graph, id: string, level: nat)
    requires AtLevel(g, [id], level)
    ensures DistinctIds(Flatten(Build(g, id, level)))
    decreases |g.Links()| + 1 - level, 0
  {
    assert id in [id];
    ChildrenAreBelow(g, id, level);
    var kids := Siblings(g, ChildSet(g, id));
    var below := FlattenAll(BuildAll(g, kids, level + 1));
    SiblingsDistinct(g, ChildSet(g, id));
    ShownOnce(g, kids, level + 1);
    NotBelowItself(g, id, kids, level);
    assert Build(g, id, level).children == BuildAll(g, kids, level + 1);
    hide BuildAll, FlattenAll, AtLevel, Siblings;
    DistinctConcat([g.nodes[id]], below);
  }

  lemma NotBelowItself(g: Graph, id: string, kids: seq<string>, level: nat)
    requires AtLevel(g, [id], level) && AtLevel(g, kids, level + 1) && kids == Siblings(g, ChildSet(g, id))
    ensures forall y :: y in FlattenAll(BuildAll(g, kids, level + 1)) ==> y.id != id
  {
    forall y | y in FlattenAll(BuildAll(g, kids, level + 1)) ensures y.id != id {
      ShownBelongs(g, kids, level + 1, y);
      NotUnderItself(g, id, kids, level, y.id);
    }
  }

  lemma NotUnderItself(g: Graph, id: string, kids: seq<string>, level: nat, y: string)
    requires AtLevel(g, [id], level) && kids == Siblings(g, ChildSet(g, id)) && Under(g.Links(), y, kids)
    ensures y != id
  {
    assert id in [id];
    SiblingsAre(g, ChildSet(g, id));
    UnderOne(g, y, id, kids);
    NoLoop(g.Links(), id, level, y);
  }

  lemma NoLoop(p: Parents, id: string, level: nat, y: string)
    requires RootAbove(p, id, level) && exists n: nat :: n > 0 && Up(p, y, n) == Some(id)
    ensures y != id
  {
    hide RootAbove, Up;
    var n: nat :| n > 0 && Up(p, y, n) == Some(id);
    LevelsAdd(p, y, n, id, level);
    if y == id {
      RootIsUnique(p, id, level, n + level);
    }
  }

  // ---- Siblings: sorted by ordinal, ties in list order, each once ----

  ghost predicate SortedByOrdinal(nodes: map<string, Item>, ids: seq<string>) {
    && (forall x :: x in ids ==> x in nodes)
    && forall i, j :: 0 <= i < j < |ids| ==> nodes[ids[i]].ordinal <= nodes[ids[j]].ordinal
  }

  lemma OrdinalsAreTotal(nodes: map<string, Item>)
    ensures TotalOn(OrdinalLeq(nodes))
  {
  }

  lemma SortSorts(nodes: map<string, Item>, ids: seq<string>)
    requires forall x :: x in ids ==> x in nodes
    ensures SortedByOrdinal(nodes, SortByOrdinal(nodes, ids))
  {
    var r := SortByOrdinal(nodes, ids);
    OrdinalsAreTotal(nodes);
    SortBySorts(OrdinalLeq(nodes), ids);
    assert forall x :: x in r <==> x in multiset(r);
    forall i, j | 0 <= i < j < |r| ensures OrdinalOf(nodes, r[i]) <= OrdinalOf(nodes, r[j]) {
      assert OrdinalLeq(nodes)(r[i], r[j]);
    }
  }

  /** Siblings with the same ordinal keep the order of the list. */
  lemma SortIsStable(nodes: map<string, Item>, ids: seq<string>, id: string)
    ensures Ties(OrdinalLeq(nodes), id, SortByOrdinal(nodes, ids)) == Ties(OrdinalLeq(nodes), id, ids)
  {
    OrdinalsAreTotal(nodes);
    SortByIsStable(OrdinalLeq(nodes), ids, id);
  }

  lemma {:induction false} FilteredDistinct(order: seq<string>, keep: set<string>)
    requires NoDup(order)
    ensures NoDup(Filtered(order, keep))
  {
    if order != [] {
      FilteredDistinct(order[1..], keep);
      assert forall x :: x in Filtered(order[1..], keep) ==> x in order[1..];
    }
  }

  lemma SiblingsDistinct(g: Graph, ids: set<string>)
    requires g.Valid() && ids <= g.nodes.Keys
    ensures NoDup(Siblings(g, ids)) && SortedByOrdinal(g.nodes, Siblings(g, ids))
  {
    FilteredDistinct(g.order, ids);
    SortSorts(g.nodes, Filtered(g.order, ids));
    StillNoDup(Filtered(g.order, ids), Siblings(g, ids));
  }

  // ---- The rendered tree ----

  /** Every child sits under its own parent, and siblings are in the order of their ordinals. */
  ghost predicate WellPlaced(tree: Tree) {
    && (forall i :: 0 <= i < |tree.children| ==> tree.children[i].item.parentId == Some(tree.item.id))
    && OrdinalsRise(tree.children)
    && (forall i :: 0 <= i < |tree.children| ==> WellPlaced(tree.children[i]))
  }

  ghost predicate OrdinalsRise(trees: seq<Tree>) {
    forall i, j :: 0 <= i < j < |trees| ==> trees[i].item.ordinal <= trees[j].item.ordinal
  }

  lemma {:induction false} BuiltItems(g: Graph, ids: seq<string>, level: nat)
    requires AtLevel(g, ids, level)
    ensures var trees := BuildAll(g, ids, level);
      |trees| == |ids| && forall i :: 0 <= i < |ids| ==> ids[i] in g.nodes && trees[i].item == g.nodes[ids[i]]
    decreases ids
  {
    if ids != [] {
      BuiltFirst(g, ids, level);
      hide AtLevel, BuildAll, Build;
      BuiltItems(g, ids[1..], level);
      var trees, rest := BuildAll(g, ids, level), BuildAll(g, ids[1..], level);
      forall i | 0 <= i < |ids| ensures ids[i] in g.nodes && trees[i].item == g.nodes[ids[i]] {
        if i > 0 {
          assert ids[1..][i - 1] == ids[i] && rest[i - 1] == trees[i];
        }
      }
    }
  }

  lemma BuiltFirst(g: Graph, ids: seq<string>, level: nat)
    requires AtLevel(g, ids, level) && ids != []
    ensures AtLevel(g, ids[1..], level) && ids[0] in g.nodes
    ensures exists tree: Tree ::
      tree.item == g.nodes[ids[0]] && BuildAll(g, ids, level) == [tree] + BuildAll(g, ids[1..], level)
  {
    assert AtLevel(g, ids[1..], level);
    var tree := Build(g, ids[0], level);
    assert BuildAll(g, ids, level) == [tree] + BuildAll(g, ids[1..], level);
  }

  ghost predicate AllWellPlaced(trees: seq<Tree>) {
    forall i :: 0 <= i < |trees| ==> WellPlaced(trees[i])
  }

  lemma AllWellPlacedConcat(tree: Tree, rest: seq<Tree>)
    requires WellPlaced(tree) && AllWellPlaced(rest)
    ensures AllWellPlaced([tree] + rest)
  {
    hide WellPlaced;
  }

  lemma {:induction false} BuiltWellPlaced(g: Graph, ids: seq<string>, level: nat)
    requires AtLevel(g, ids, level)
    ensures AllWellPlaced(BuildAll(g, ids, level))
    decreases |g.Links()| + 1 - level, |ids|
  {
    if ids != [] {
      NodeWellPlaced(g, ids[0], level);
      assert AtLevel(g, ids[1..], level);
      hide AtLevel, Build, WellPlaced;
      BuiltWellPlaced(g, ids[1..], level);
      AllWellPlacedConcat(Build(g, ids[0], level), BuildAll(g, ids[1..], level));
    }
  }

  lemma {:induction false} NodeWellPlaced(g: Graph, id: string, level: nat)
    requires AtLevel(g, [id], level)
    ensures WellPlaced(Build(g, id, level))
    decreases |g.Links()| + 1 - level, 0
  {
    Built(g, id, level);
    var kids := Siblings(g, ChildSet(g, id));
    ValidLevel(g, id, level);
    hide Build, BuildAll, AtLevel, Siblings, Graph.Valid, WellPlaced, AllWellPlaced, SortedByOrdinal;
    BuiltWellPlaced(g, kids, level + 1);
    BuiltItems(g, kids, level + 1);
    SiblingsDistinct(g, ChildSet(g, id));
    ChildrenName(g, id);
    Placing(g, id, kids, BuildAll(g, kids, level + 1));
  }

  lemma Placing(g: Graph, id: string, kids: seq<string>, trees: seq<Tree>)
    requires id in g.nodes && g.nodes[id].id == id && SortedByOrdinal(g.nodes, kids) && AllWellPlaced(trees)
    requires |trees| == |kids| && forall i :: 0 <= i < |kids| ==> trees[i].item == g.nodes[kids[i]]
    requires forall x :: x in kids ==> g.nodes[x].parentId == Some(id)
    ensures WellPlaced(Node(g.nodes[id], trees))
  {
  }

  lemma ValidLevel(g: Graph, id: string, level: nat)
    requires AtLevel(g, [id], level)
    ensures g.Valid() && id in g.nodes && g.nodes[id].id == id
  {
    assert id in [id];
  }

  lemma ChildrenName(g: Graph, id: string)
    requires g.Valid()
    ensures forall x :: x in Siblings(g, ChildSet(g, id)) ==> x in g.nodes && g.nodes[x].parentId == Some(id)
  {
  }

  lemma RenderedIsPlaced(items: seq<Item>)
    ensures OrdinalsRise(Rendered(items)) && AllWellPlaced(Rendered(items))
  {
    var g := Indexed(items);
    RootsAreRoots(g);
    var roots := Siblings(g, RootSet(g));
    BuiltItems(g, roots, 0);
    BuiltWellPlaced(g, roots, 0);
    SiblingsDistinct(g, RootSet(g));
    hide BuildAll, Siblings, AtLevel, AllWellPlaced;
  }

  /** The chain of parents of `id` ends, at an item without a parent in the list. */
  ghost predicate Rooted(g: Graph, id: string) {
    exists d: nat :: RootAbove(g.Links(), id, d)
  }

  /** For any list whatever, the tree shows exactly the items whose chain of parents ends, each once. */
  lemma ShowsExactlyTheRooted(items: seq<Item>)
    ensures var shown := FlattenAll(Rendered(items)); var g := Indexed(items);
      && DistinctIds(shown)
      && (forall x :: x in shown ==> Shown(g, x))
      && (forall id :: id in g.nodes ==> (g.nodes[id] in shown <==> Rooted(g, id)))
  {
    var g := Indexed(items);
    var p := g.Links();
    RootsAreRoots(g);
    var roots := Siblings(g, RootSet(g));
    var shown := FlattenAll(Rendered(items));
    SiblingsDistinct(g, RootSet(g));
    ShownOnce(g, roots, 0);
    forall x | x in shown ensures Shown(g, x) && Rooted(g, x.id) {
      ShownBelongs(g, roots, 0, x);
      var n: nat :| Up(p, x.id, n).Some? && Up(p, x.id, n).value in roots;
      LevelsAdd(p, x.id, n, Up(p, x.id, n).value, 0);
    }
    forall id | id in g.nodes && Rooted(g, id) ensures g.nodes[id] in shown {
      var d: nat :| RootAbove(p, id, d);
      StaysInside(g, id, d);
      BelongsShown(g, roots, 0, id, d);
    }
  }

  lemma {:induction false} StaysInside(g: Graph, id: string, n: nat)
    requires g.Valid() && id in g.nodes && Up(g.Links(), id, n).Some?
    ensures Up(g.Links(), id, n).value in g.nodes
    decreases n
  {
    if n > 0 {
      StaysInside(g, g.Links()[id], n - 1);
    }
  }

  // ---- When nothing gets lost ----

  lemma {:induction false} IndexedDistinct(items: seq<Item>, i: nat)
    requires DistinctIds(items) && i < |items|
    ensures var g := Indexed(items); items[i].id in g.nodes && g.nodes[items[i].id] == items[i]
  {
    var front, last := items[..|items| - 1], items[|items| - 1];
    IndexedLast(items);
    hide Indexed;
    if i < |front| {
      assert front[i] == items[i] && items[i].id != last.id;
      IndexedDistinct(front, i);
    }
  }

  lemma IndexedLast(items: seq<Item>)
    requires items != []
    ensures Indexed(items) == Indexed(items[..|items| - 1]).Put(items[|items| - 1])
  {
  }

  lemma DistinctIsNoDup(s: seq<Item>)
    requires DistinctIds(s)
    ensures NoDup(s)
  {
  }

  lemma DistinctFromMultiset(a: seq<Item>, b: seq<Item>)
    requires DistinctIds(a) && multiset(a) == multiset(b)
    ensures DistinctIds(b)
  {
    DistinctIsNoDup(a);
    StillNoDup(a, b);
    forall i, j | 0 <= i < j < |b| ensures b[i].id != b[j].id {
      assert b[i] in a && b[j] in a;
      var k :| 0 <= k < |a| && a[k] == b[i];
      var l :| 0 <= l < |a| && a[l] == b[j];
    }
  }

  lemma RootedIsAcyclic(p: Parents)
    requires forall id :: id in p ==> exists d: nat :: RootAbove(p, id, d)
    ensures Acyclic(p)
  {
    forall id, n: nat | n > 0 ensures Up(p, id, n) != Some(id) {
      if Up(p, id, n) == Some(id) {
        var d: nat :| RootAbove(p, id, d);
        LevelsAdd(p, id, n, id, d);
        RootIsUnique(p, id, d, n + d);
      }
    }
  }

  lemma ConservedIsForest(items: seq<Item>)
    requires multiset(FlattenAll(Rendered(items))) == multiset(items)
    ensures DistinctIds(items) && Acyclic(Indexed(items).Links())
  {
    var g, shown := Indexed(items), FlattenAll(Rendered(items));
    ShowsExactlyTheRooted(items);
    DistinctFromMultiset(shown, items);
    hide FlattenAll, Rendered, Indexed, RootAbove;
    forall id | id in g.Links() ensures exists d: nat :: RootAbove(g.Links(), id, d) {
      var i :| 0 <= i < |items| && items[i].id == id;
      IndexedDistinct(items, i);
      assert items[i] in multiset(shown);
      assert Rooted(g, id);
    }
    RootedIsAcyclic(g.Links());
  }

  lemma ForestIsConserved(items: seq<Item>)
    requires DistinctIds(items) && Acyclic(Indexed(items).Links())
    ensures multiset(FlattenAll(Rendered(items))) == multiset(items)
  {
    var g, shown := Indexed(items), FlattenAll(Rendered(items));
    ShowsExactlyTheRooted(items);
    hide FlattenAll, Rendered, Indexed, RootAbove;
    forall x ensures x in shown <==> x in items {
      if x in items {
        var i :| 0 <= i < |items| && items[i] == x;
        IndexedDistinct(items, i);
        AcyclicIsRooted(g.Links(), x.id);
        assert Rooted(g, x.id);
      }
      if x in shown {
        assert x.id in Ids(items);
        var i :| 0 <= i < |items| && items[i].id == x.id;
        IndexedDistinct(items, i);
      }
    }
    DistinctIsNoDup(shown);
    DistinctIsNoDup(items);
    SameMultiset(shown, items);
  }

  /** Rendering conserves the items if and only if their ids are distinct and no parents form a circle. */
  lemma ConservesIffForest(items: seq<Item>)
    ensures multiset(FlattenAll(Rendered(items))) == multiset(items)
       <==> DistinctIds(items) && Acyclic(Indexed(items).Links())
  {
    if multiset(FlattenAll(Rendered(items))) == multiset(items) {
      ConservedIsForest(items);
    }
    if DistinctIds(items) && Acyclic(Indexed(items).Links()) {
      ForestIsConserved(items);
    }
  }

  lemma SameLinks(items: seq<Item>)
    requires DistinctIds(items) && ParentsKnown(items)
    requires forall i :: 0 <= i < |items| ==> items[i].parentId != Some("")
    ensures Indexed(items).Links() == Links(items)
  {
    var p, q := Indexed(items).Links(), Links(items);
    hide Indexed, Links, Graph.Links, Ids, DistinctIds, ParentsKnown;
    forall id ensures (id in p <==> id in q) && (id in q ==> p[id] == q[id]) {
      SameLink(items, id);
    }
  }

  lemma SameLink(items: seq<Item>, id: string)
    requires DistinctIds(items) && ParentsKnown(items)
    requires forall i :: 0 <= i < |items| ==> items[i].parentId != Some("")
    ensures var p, q := Indexed(items).Links(), Links(items);
      (id in p <==> id in q) && (id in q ==> p[id] == q[id])
  {
    if id in Ids(items) {
      var i :| 0 <= i < |items| && items[i].id == id;
      FindAt(items, i);
      IndexedDistinct(items, i);
      hide Indexed, Find, DistinctIds;
    }
  }

  /** So every list the checklist checks accept is rendered in full. */
  lemma ValidForestIsConserved(items: seq<Item>, max: nat)
    requires Forest(items, max) && forall i :: 0 <= i < |items| ==> items[i].parentId != Some("")
    ensures multiset(FlattenAll(Rendered(items))) == multiset(items)
  {
    SameLinks(items);
    ConservesIffForest(items);
  }

  /** Two items, each the other's parent: nothing at all is rendered. */
  lemma CircleVanishes()
    ensures Rendered([Item("a", Some("b"), "first", 0, ""), Item("b", Some("a"), "second", 1, "")]) == []
  {
    var a, b := Item("a", Some("b"), "first", 0, ""), Item("b", Some("a"), "second", 1, "");
    IndexedTwo(a, b);
    assert Indexed([a, b]).HasParent("a") && Indexed([a, b]).HasParent("b");
    NoRootsNoTree([a, b]);
  }

  lemma IndexedTwo(a: Item, b: Item)
    requires a.id != b.id
    ensures Indexed([a, b]) == Graph([a.id, b.id], map[a.id := a, b.id := b])
  {
    assert [a, b][..1] == [a] && [a][..0] == [];
    assert Indexed([]) == Graph([], map[]);
    assert Indexed([a]) == Indexed([]).Put(a);
    assert Indexed([a, b]) == Indexed([a]).Put(b);
  }

  lemma NoRootsNoTree(items: seq<Item>)
    requires RootSet(Indexed(items)) == {}
    ensures Rendered(items) == []
  {
    hide Indexed, RootSet, Siblings;
    RootsAreRoots(Indexed(items));
    var roots := Siblings(Indexed(items), RootSet(Indexed(items)));
    assert forall i :: 0 <= i < |roots| ==> roots[i] in RootSet(Indexed(items));
  }
}
