/** The checks that a flat list of checklist items is a forest of bounded depth. */
module Checklists {
  import opened Basics
  import opened MemoryTypes
  import opened ParentChains

  // ---- What the checks are about ----

  function Ids(items: seq<Item>): set<string> {
    set i | 0 <= i < |items| :: items[i].id
  }

  /** The first item with the id. */
  function Find(items: seq<Item>, id: string): (r: Option<Item>)
    ensures r.Some? <==> id in Ids(items)
    ensures r.Some? ==> r.value.id == id && r.value in items
  {
    if items == [] then None
    else if items[0].id == id then Some(items[0])
    else
      assert items == [items[0]] + items[1..];
      Find(items[1..], id)
  }

  function Links(items: seq<Item>): Parents {
    map id | id in Ids(items) && Find(items, id).value.parentId.Some? :: Find(items, id).value.parentId.value
  }

  ghost predicate DistinctIds(items: seq<Item>) {
    forall i, j :: 0 <= i < j < |items| ==> items[i].id != items[j].id
  }

  ghost predicate ParentsKnown(items: seq<Item>) {
    forall i :: 0 <= i < |items| && items[i].parentId.Some? ==> items[i].parentId.value in Ids(items)
  }

  /** Counting levels from 1, no item is deeper than `max`. */
  ghost predicate DepthWithin(items: seq<Item>, max: nat) {
    forall id :: id in Ids(items) ==> exists d: nat :: d < max && RootAbove(Links(items), id, d)
  }

  ghost predicate Forest(items: seq<Item>, max: nat) {
    DistinctIds(items) && ParentsKnown(items) && Acyclic(Links(items)) && DepthWithin(items, max)
  }

  // ---- The two walks ----

  /** Ends at a root of the chain that is an item. */
  ghost predicate DepthIs(items: seq<Item>, id: string, depth: nat) {
    depth > 0 && RootAbove(Links(items), id, depth - 1) && Up(Links(items), id, depth - 1).value in Ids(items)
  }

  lemma IdsFew(items: seq<Item>)
    ensures |Ids(items)| <= |items|
  {
    if items != [] {
      IdsFew(items[1..]);
      assert items == [items[0]] + items[1..];
      assert Ids(items) == {items[0].id} + Ids(items[1..]);
    }
  }

  /** Depth of an item, from 1; 0 if its chain breaks off or never ends. */
  method ItemDepth(items: seq<Item>, id: string) returns (depth: nat)
    ensures depth > 0 ==> DepthIs(items, id, depth)
    ensures depth == 0 ==> forall d: nat :: !DepthIs(items, id, d)
  {
    ghost var p := Links(items);
    assert Up(p, id, 0) == Some(id);
    hide Up;
    IdsFew(items);
    depth := 0;
    var current := Some(id);
    while current.Some?
      invariant depth <= |items|
      invariant Up(p, id, depth) == current
      invariant depth > 0 ==> Up(p, id, depth - 1).Some? && Up(p, id, depth - 1).value in Ids(items)
      decreases |items| - depth, if current.Some? then 1 else 0
    {
      var found := Find(items, current.value);
      if found.None? {
        forall d: nat ensures !DepthIs(items, id, d) {
          if DepthIs(items, id, d) {
            RootIsUnique(p, id, d - 1, depth);
          }
        }
        return 0;
      }
      UpOne(p, id, depth);
      depth := depth + 1;
      if depth > |items| {
        forall d: nat ensures !DepthIs(items, id, d) {
          if DepthIs(items, id, d) {
            RootIsNearKnown(p, id, d - 1, Ids(items));
            UpBefore(p, id, d - 1, depth - 1);
          }
        }
        return 0;
      }
      current := found.value.parentId;
    }
    assert RootAbove(p, id, depth - 1) by {
      UpOne(p, id, depth - 1);
    }
  }

  /** Would hanging `id` under `parent` close a circle? */
  method CreatesCycle(items: seq<Item>, id: string, parent: Option<string>) returns (cycle: bool)
    ensures cycle <==> parent.Some? && exists n: nat :: Up(Links(items), parent.value, n) == Some(id)
  {
    if parent.None? {
      return false;
    }
    ghost var p := Links(items);
    if parent.value == id {
      assert Up(p, id, 0) == Some(id);
      return true;
    }
    var visited: set<string> := {};
    var current := parent;
    ghost var n: nat := 0;
    while current.Some?
      invariant current == Up(p, parent.value, n)
      invariant forall x :: x in visited <==> exists k: nat :: k < n && Up(p, parent.value, k) == Some(x)
      invariant id !in visited
      decreases Ids(items) - visited, if current.Some? then 1 else 0
    {
      if current.value == id {
        return true;
      }
      if current.value in visited {
        ghost var k: nat :| k < n && Up(p, parent.value, k) == current;
        forall m: nat ensures Up(p, parent.value, m) != Some(id) {
          CircleStays(p, parent.value, k, n, m);
        }
        return false;
      }
      UpOne(p, parent.value, n);
      ghost var before := visited;
      visited := visited + {current.value};
      var found := Find(items, current.value);
      n := n + 1;
      assert forall x :: x in visited <==> exists k: nat :: k < n && Up(p, parent.value, k) == Some(x) by {
        forall x ensures x in visited <==> exists k: nat :: k < n && Up(p, parent.value, k) == Some(x) {
          if x in visited && x !in before {
            assert Up(p, parent.value, n - 1) == Some(x);
          }
        }
      }
      current := if found.Some? then found.value.parentId else None;
    }
    forall m: nat ensures Up(p, parent.value, m) != Some(id) {
      if m >= n && Up(p, parent.value, m).Some? {
        UpBefore(p, parent.value, n, m);
      }
    }
    return false;
  }

  /** Once a chain is back where it has been, everything on it has been seen. */
  lemma {:induction false} CircleStays(p: Parents, id: string, k: nat, n: nat, m: nat)
    requires k < n && Up(p, id, k).Some? && Up(p, id, k) == Up(p, id, n)
    ensures exists j: nat :: j < n && Up(p, id, j) == Up(p, id, m)
    decreases m
  {
    if m >= n {
      UpThenUp(p, id, n, m - n);
      UpThenUp(p, id, k, m - n);
      assert Up(p, id, k + (m - n)) == Up(p, id, m);
      CircleStays(p, id, k, n, k + (m - n));
    }
  }

  // ---- The validator ----

  predicate HasId(items: seq<Item>, id: string) {
    exists i :: 0 <= i < |items| && items[i].id == id
  }

  lemma FindAt(items: seq<Item>, i: nat)
    requires i < |items| && forall j :: 0 <= j < i ==> items[j].id != items[i].id
    ensures Find(items, items[i].id) == Some(items[i])
  {
    if i > 0 {
      assert items[1..][i - 1] == items[i];
      FindAt(items[1..], i - 1);
    }
  }

  /** What the loop asks of one item. */
  ghost predicate ItemPasses(items: seq<Item>, i: nat, max: nat)
    requires i < |items|
  {
    && (forall j :: 0 <= j < i ==> items[j].id != items[i].id)
    && (items[i].parentId.Some? ==>
          && items[i].parentId.value in Ids(items)
          && !exists n: nat :: Up(Links(items), items[i].parentId.value, n) == Some(items[i].id))
    && (forall d: nat :: DepthIs(items, items[i].id, d) ==> d <= max)
  }

  method ValidateItems(items: seq<Item>, max: nat) returns (ok: bool)
    ensures ok <==> Forest(items, max)
  {
    var seen: set<string> := {};
    for i := 0 to |items|
      invariant seen == set j | 0 <= j < i :: items[j].id
      invariant forall j :: 0 <= j < i ==> ItemPasses(items, j, max)
    {
      var item := items[i];
      if item.id in seen {
        return false;
      }
      seen := seen + {item.id};
      if item.parentId.Some? {
        if !HasId(items, item.parentId.value) {
          return false;
        }
        var cycle := CreatesCycle(items, item.id, item.parentId);
        if cycle {
          ForestPasses(items, max, i);
          return false;
        }
      }
      var depth := ItemDepth(items, item.id);
      if depth > max {
        ForestPasses(items, max, i);
        return false;
      }
      assert ItemPasses(items, i, max) by {
        forall d: nat | DepthIs(items, item.id, d) ensures d <= max {
          if depth > 0 {
            RootIsUnique(Links(items), item.id, d - 1, depth - 1);
          }
        }
      }
    }
    PassesForest(items, max);
    return true;
  }

  lemma ForestPasses(items: seq<Item>, max: nat, i: nat)
    requires i < |items|
    ensures Forest(items, max) ==> ItemPasses(items, i, max)
  {
    if Forest(items, max) {
      var p, item := Links(items), items[i];
      FindAt(items, i);
      if item.parentId.Some? {
        forall n: nat ensures Up(p, item.parentId.value, n) != Some(item.id) {
          assert Up(p, item.id, n + 1) == Up(p, item.parentId.value, n);
        }
      }
      forall d: nat | DepthIs(items, item.id, d) ensures d <= max {
        var e: nat :| e < max && RootAbove(p, item.id, e);
        RootIsUnique(p, item.id, d - 1, e);
      }
    }
  }

  lemma PassesForest(items: seq<Item>, max: nat)
    requires forall i :: 0 <= i < |items| ==> ItemPasses(items, i, max)
    ensures Forest(items, max)
  {
    var p := Links(items);
    forall i, j | 0 <= i < j < |items| ensures items[i].id != items[j].id {
      assert ItemPasses(items, j, max);
    }
    forall i | 0 <= i < |items| && items[i].parentId.Some? ensures items[i].parentId.value in Ids(items) {
      assert ItemPasses(items, i, max);
    }
    forall x, n: nat | x in p && n > 0 ensures Up(p, x, n) != Some(x) {
      NotOnCircle(items, max, x, n);
    }
    forall id | id in Ids(items) ensures exists d: nat :: d < max && RootAbove(p, id, d) {
      AcyclicIsRooted(p, id);
      var d: nat :| d <= |p| && RootAbove(p, id, d);
      RootIsItem(items, id, d);
      var i :| 0 <= i < |items| && items[i].id == id;
      assert ItemPasses(items, i, max);
      assert DepthIs(items, id, d + 1);
    }
  }

  lemma NotOnCircle(items: seq<Item>, max: nat, x: string, n: nat)
    requires forall i :: 0 <= i < |items| ==> ItemPasses(items, i, max)
    requires x in Links(items) && n > 0
    ensures Up(Links(items), x, n) != Some(x)
  {
    var p := Links(items);
    var i :| 0 <= i < |items| && items[i].id == x;
    assert ItemPasses(items, i, max);
    FindAt(items, i);
    assert Up(p, x, n) == Up(p, p[x], n - 1);
  }

  lemma LinksStayInside(items: seq<Item>, id: string)
    requires ParentsKnown(items) && id in Links(items)
    ensures Links(items)[id] in Ids(items)
  {
    var found := Find(items, id).value;
    var i :| 0 <= i < |items| && items[i] == found;
  }

  lemma RootIsItem(items: seq<Item>, id: string, d: nat)
    requires ParentsKnown(items) && id in Ids(items) && RootAbove(Links(items), id, d)
    ensures Up(Links(items), id, d).value in Ids(items)
  {
    var p := Links(items);
    hide Links, ParentsKnown;
    if d > 0 {
      UpBefore(p, id, d - 1, d);
      UpOne(p, id, d - 1);
      LinksStayInside(items, Up(p, id, d - 1).value);
    }
  }
}
