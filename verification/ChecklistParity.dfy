/** The TypeScript engine's own walks: written differently, they accept the same lists. */
module ChecklistParity {
  import opened Basics
  import opened MemoryTypes
  import opened ParentChains
  import opened Checklists

  /** The schema: ids and parent ids are never empty strings. */
  predicate SchemaChecked(items: seq<Item>) {
    forall i :: 0 <= i < |items| ==> items[i].id != "" && items[i].parentId != Some("")
  }

  /** Counts a missing parent as a root; gives up as soon as an id comes round again. */
  method ItemDepth(items: seq<Item>, id: string) returns (depth: nat)
    requires SchemaChecked(items) && id != ""
    ensures depth > 0 ==> RootAbove(Links(items), id, depth - 1)
    ensures depth == 0 ==> forall d: nat :: RootAbove(Links(items), id, d) ==> d >= |items|
  {
    ghost var p := Links(items);
    depth := 0;
    var current := Some(id);
    var guarded: set<string> := {};
    while current.Some? && current.value != ""
      invariant depth <= |items|
      invariant Up(p, id, depth) == current && current != Some("")
      invariant depth > 0 ==> Up(p, id, depth - 1).Some?
      invariant forall x :: x in guarded <==> exists k: nat :: k < depth && Up(p, id, k) == Some(x)
      decreases |items| - depth, if current.Some? then 1 else 0
    {
      depth := depth + 1;
      if current.value in guarded || depth > |items| {
        forall d: nat | RootAbove(p, id, d) ensures d >= |items| {
          RootMeansNoCircle(p, id, depth - 1, d);
        }
        return 0;
      }
      UpOne(p, id, depth - 1);
      ghost var before := guarded;
      guarded := guarded + {current.value};
      forall x ensures x in guarded <==> exists k: nat :: k < depth && Up(p, id, k) == Some(x) {
        if x in guarded && x !in before {
          assert Up(p, id, depth - 1) == Some(x);
        }
      }
      var found := Find(items, current.value);
      current := if found.Some? then found.value.parentId else None;
    }
    assert RootAbove(p, id, depth - 1) by {
      UpOne(p, id, depth - 1);
    }
  }

  /** With a root near by, a chain is neither long nor ever back where it was. */
  lemma RootMeansNoCircle(p: Parents, id: string, n: nat, d: nat)
    requires Up(p, id, n).Some? && RootAbove(p, id, d)
    ensures n <= d && forall k: nat :: k < n ==> Up(p, id, k) != Up(p, id, n)
  {
    if d < n {
      UpBefore(p, id, d, n);
    }
    forall k: nat | k < n ensures Up(p, id, k) != Up(p, id, n) {
      if Up(p, id, k) == Up(p, id, n) {
        UpThenUp(p, id, k, d - n);
        UpThenUp(p, id, n, d - n);
        RootIsUnique(p, id, k + (d - n), d);
      }
    }
  }

  method CreatesCycle(items: seq<Item>, id: string, parent: string) returns (cycle: bool)
    requires SchemaChecked(items) && parent != ""
    ensures cycle <==> exists n: nat :: Up(Links(items), parent, n) == Some(id)
  {
    ghost var p := Links(items);
    if parent == id {
      assert Up(p, id, 0) == Some(id);
      return true;
    }
    var current := Some(parent);
    var guarded: set<string> := {};
    ghost var n: nat := 0;
    while current.Some? && current.value != ""
      invariant current == Up(p, parent, n) && current != Some("")
      invariant forall x :: x in guarded <==> exists k: nat :: k < n && Up(p, parent, k) == Some(x)
      invariant id !in guarded
      decreases Ids(items) - guarded, if current.Some? then 1 else 0
    {
      if current.value == id {
        return true;
      }
      if current.value in guarded {
        ghost var k: nat :| k < n && Up(p, parent, k) == current;
        forall m: nat ensures Up(p, parent, m) != Some(id) {
          CircleStays(p, parent, k, n, m);
        }
        return false;
      }
      UpOne(p, parent, n);
      ghost var before := guarded;
      guarded := guarded + {current.value};
      n := n + 1;
      forall x ensures x in guarded <==> exists k: nat :: k < n && Up(p, parent, k) == Some(x) {
        if x in guarded && x !in before {
          assert Up(p, parent, n - 1) == Some(x);
        }
      }
      var found := Find(items, current.value);
      current := if found.Some? then found.value.parentId else None;
    }
    forall m: nat ensures Up(p, parent, m) != Some(id) {
      if m >= n && Up(p, parent, m).Some? {
        UpBefore(p, parent, n, m);
      }
    }
    return false;
  }

  method ValidateItems(items: seq<Item>, max: nat) returns (ok: bool)
    requires SchemaChecked(items)
    ensures ok <==> Forest(items, max)
  {
    var seen: set<string> := {};
    for i := 0 to |items|
      invariant seen == set j | 0 <= j < i :: items[j].id
      invariant forall j :: 0 <= j < i ==> ItemPasses(items, j, max)
    {
      var item := items[i];
      if item.id in seen {
        return false;
      }
      seen := seen + {item.id};
      if item.parentId.Some? && item.parentId.value != "" {
        if !HasId(items, item.parentId.value) {
          return false;
        }
        var cycle := CreatesCycle(items, item.id, item.parentId.value);
        if cycle {
          ForestPasses(items, max, i);
          return false;
        }
      }
      var depth := ItemDepth(items, item.id);
      DepthsAgree(items, item.id, depth);
      if depth > max {
        ForestIsShallow(items, item.id, max, depth - 1);
        return false;
      }
      assert ItemPasses(items, i, max);
    }
    PassesForest(items, max);
    return true;
  }

  lemma DepthsAgree(items: seq<Item>, id: string, depth: nat)
    requires depth > 0 ==> RootAbove(Links(items), id, depth - 1)
    requires depth == 0 ==> forall d: nat :: RootAbove(Links(items), id, d) ==> d >= |items|
    ensures forall d: nat :: DepthIs(items, id, d) ==> d == depth
  {
    IdsFew(items);
    forall d: nat | DepthIs(items, id, d) ensures d == depth {
      if depth > 0 {
        RootIsUnique(Links(items), id, d - 1, depth - 1);
      } else {
        RootIsNearKnown(Links(items), id, d - 1, Ids(items));
      }
    }
  }

  lemma ForestIsShallow(items: seq<Item>, id: string, max: nat, d: nat)
    requires id in Ids(items) && RootAbove(Links(items), id, d) && d >= max
    ensures !Forest(items, max)
  {
    if Forest(items, max) {
      var e: nat :| e < max && RootAbove(Links(items), id, e);
      RootIsUnique(Links(items), id, d, e);
    }
  }
}
