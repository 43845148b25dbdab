/** A depth limit that falls back to 5, and the checklists made under a higher one. */
module MemoryLimits {
  import opened Basics
  import opened MemoryTypes
  import opened ParentChains
  import opened Checklists
  import opened MemoryEngine
  import opened MemoryCopies

  /** The item is there already, under another parent. */
  predicate Moves(items: seq<Item>, item: Item) {
    exists i :: 0 <= i < |items| && items[i].id == item.id && items[i].parentId != item.parentId
  }

  /** The links of a list without repeated ids. */
  lemma LinksAre(items: seq<Item>)
    requires DistinctIds(items)
    ensures forall i :: 0 <= i < |items| ==>
      && (items[i].id in Links(items) <==> items[i].parentId.Some?)
      && (items[i].parentId.Some? ==> Links(items)[items[i].id] == items[i].parentId.value)
    ensures Links(items).Keys <= Ids(items)
  {
    forall i | 0 <= i < |items| ensures Find(items, items[i].id) == Some(items[i]) {
      FindAt(items, i);
    }
  }

  lemma SameLinks(items: seq<Item>, other: seq<Item>)
    requires DistinctIds(items) && |other| == |items|
    requires forall i :: 0 <= i < |items| ==> other[i].id == items[i].id && other[i].parentId == items[i].parentId
    ensures Ids(other) == Ids(items) && Links(other) == Links(items)
  {
    SomeLinks(items, other);
    SomeLinks(other, items);
  }

  lemma SomeLinks(items: seq<Item>, other: seq<Item>)
    requires DistinctIds(items) && |other| == |items|
    requires forall i :: 0 <= i < |items| ==> other[i].id == items[i].id && other[i].parentId == items[i].parentId
    ensures Ids(items) <= Ids(other)
    ensures forall id :: id in Links(items) ==> id in Links(other) && Links(other)[id] == Links(items)[id]
  {
    LinksAre(items);
    LinksAre(other);
    hide Links;
    forall id | id in Ids(items)
      ensures id in Ids(other) && (id in Links(items) ==> id in Links(other) && Links(other)[id] == Links(items)[id])
    {
      var i :| 0 <= i < |items| && items[i].id == id;
      assert other[i].id == id;
    }
  }

  /** A new item changes no chain: it is nobody's parent. */
  lemma {:induction false} SameChain(items: seq<Item>, item: Item, id: string, n: nat)
    requires DistinctIds(items) && ParentsKnown(items) && item.id !in Ids(items) && id in Ids(items)
    ensures Up(Links(items + [item]), id, n) == Up(Links(items), id, n)
    ensures Up(Links(items), id, n).Some? ==>
      var x := Up(Links(items), id, n).value;
      x in Ids(items) && (x in Links(items + [item]) <==> x in Links(items))
    decreases n
  {
    hide Links, DistinctIds, ParentsKnown;
    var parent := OneLink(items, item, id);
    if n > 0 && parent.Some? {
      SameChain(items, item, parent.value, n - 1);
    }
  }

  /** The link of an item that was there before. */
  lemma OneLink(items: seq<Item>, item: Item, id: string) returns (parent: Option<string>)
    requires DistinctIds(items) && ParentsKnown(items) && item.id !in Ids(items) && id in Ids(items)
    ensures (id in Links(items) <==> parent.Some?) && (id in Links(items + [item]) <==> parent.Some?)
    ensures parent.Some? ==>
      Links(items)[id] == parent.value && Links(items + [item])[id] == parent.value && parent.value in Ids(items)
  {
    StillDistinct(items, item);
    LinksAre(items);
    LinksAre(items + [item]);
    hide Links, DistinctIds;
    var i :| 0 <= i < |items| && items[i].id == id;
    assert (items + [item])[i] == items[i];
    parent := items[i].parentId;
  }

  lemma StillDistinct(items: seq<Item>, item: Item)
    requires DistinctIds(items) && item.id !in Ids(items)
    ensures DistinctIds(items + [item])
  {
    assert forall i :: 0 <= i < |items| ==> items[i].id in Ids(items);
  }

  lemma StillTooDeep(items: seq<Item>, other: seq<Item>, max: nat)
    requires !DepthWithin(items, max) && Ids(items) <= Ids(other)
    requires forall id, d: nat :: id in Ids(items) && RootAbove(Links(other), id, d) ==> RootAbove(Links(items), id, d)
    ensures !DepthWithin(other, max)
  {
    hide Links, RootAbove, Ids;
    var id :| id in Ids(items) && forall d: nat :: d < max ==> !RootAbove(Links(items), id, d);
    assert id in Ids(other) && forall d: nat :: d < max ==> !RootAbove(Links(other), id, d);
  }

  lemma AppendedStaysDeep(items: seq<Item>, item: Item, max: nat)
    requires DistinctIds(items) && ParentsKnown(items) && !DepthWithin(items, max) && item.id !in Ids(items)
    ensures !DepthWithin(items + [item], max)
  {
    forall id, d: nat | id in Ids(items) && RootAbove(Links(items + [item]), id, d)
      ensures RootAbove(Links(items), id, d)
    {
      SameChain(items, item, id, d);
    }
    forall id | id in Ids(items) ensures id in Ids(items + [item]) {
      var i :| 0 <= i < |items| && items[i].id == id;
      assert (items + [item])[i].id == id;
    }
    StillTooDeep(items, items + [item], max);
  }

  lemma DeepStaysDeep(items: seq<Item>, item: Item, deeper: nat, max: nat)
    requires Forest(items, deeper) && !DepthWithin(items, max) && !Moves(items, item)
    ensures !DepthWithin(WithItem(items, item), max)
  {
    if i :| 0 <= i < |items| && items[i].id == item.id {
      WithItemReplaces(items, item, i);
      SameLinks(items, items[i := item]);
      hide Links, RootAbove, Ids, DepthWithin;
      StillTooDeep(items, items[i := item], max);
    } else {
      WithItemAppends(items, item);
      hide Links, RootAbove, DepthWithin;
      AppendedStaysDeep(items, item, max);
    }
  }

  /** A list that is too deep for the limit takes no new item and no change of an item that
      leaves it where it is: of all requests only a move can be accepted. */
  lemma TooDeepTakesOnlyMoves(e: Engine, req: ItemRequest, deeper: nat)
    requires req.checklistId in e.records && e.records[req.checklistId].Checklist?
    requires Forest(e.records[req.checklistId].items, deeper)
    requires !DepthWithin(e.records[req.checklistId].items, e.maxDepth)
    ensures ItemStep(e, req).Some? ==> Moves(e.records[req.checklistId].items, req.item)
  {
    var items := e.records[req.checklistId].items;
    if !Moves(items, req.item) {
      DeepStaysDeep(items, req.item, deeper, e.maxDepth);
    }
  }

  /** The write fails, and memory is loaded back from the table. */
  ghost predicate FailsRepaired(c: Copies, change: Change, f: Faults) {
    f.write && !f.reconcile && !f.call && Stored(c.memory, change).Some?
  }

  /** So one failed write, though repaired, freezes every list made deeper than 5 under a higher limit. */
  lemma RepairFreezesDeepLists(c: Copies, change: Change, f: Faults, req: ItemRequest, existingOnly: bool,
                               expected: Option<Scope>)
    requires Agree(c) && EngineInv(c.memory) && FailsRepaired(c, change, f)
    requires req.checklistId in c.table && c.table[req.checklistId].Checklist?
    requires !DepthWithin(c.table[req.checklistId].items, 5) && !Moves(c.table[req.checklistId].items, req.item)
    ensures var u := After(c, change, f);
      u == Copies(Engine(c.table, 5), c.table) && Stored(u.memory, Puts(req, existingOnly, expected)).None?
  {
    hide ItemStep, DepthWithin, CreateStep, UpdateReaches;
    assert ChecklistSound(c.table[req.checklistId], c.memory.maxDepth);
    TooDeepTakesOnlyMoves(Engine(c.table, 5), req, c.memory.maxDepth);
  }

  // ---- A list of so many levels ----

  /** Each item is the parent of the next. */
  function Chain(ids: seq<string>): (items: seq<Item>)
    ensures |items| == |ids|
    ensures forall k :: 0 <= k < |ids| ==>
      items[k] == Item(ids[k], if k == 0 then None else Some(ids[k - 1]), "step", 0, "")
  {
    seq(|ids|, k requires 0 <= k < |ids| => Item(ids[k], if k == 0 then None else Some(ids[k - 1]), "step", 0, ""))
  }

  lemma ChainLinks(ids: seq<string>)
    requires NoDup(ids)
    ensures DistinctIds(Chain(ids)) && ParentsKnown(Chain(ids))
    ensures forall id :: id in Ids(Chain(ids)) <==> id in ids
    ensures forall k :: 0 <= k < |ids| ==>
      (ids[k] in Links(Chain(ids)) <==> k > 0) && (k > 0 ==> Links(Chain(ids))[ids[k]] == ids[k - 1])
    ensures Links(Chain(ids)).Keys <= Ids(Chain(ids))
  {
    var items := Chain(ids);
    hide Links;
    forall k | 0 <= k < |ids| ensures items[k].id == ids[k] && ids[k] in Ids(items) {
      assert items[k].id in Ids(items);
    }
    LinksAre(items);
    forall k | 0 <= k < |ids|
      ensures (ids[k] in Links(items) <==> k > 0) && (k > 0 ==> Links(items)[ids[k]] == ids[k - 1])
    {
      assert items[k].id == ids[k];
    }
  }

  /** Up the chain from the k-th item. */
  lemma {:induction false} ChainUp(ids: seq<string>, k: nat, n: nat)
    requires NoDup(ids) && k < |ids|
    ensures Up(Links(Chain(ids)), ids[k], n) == if n <= k then Some(ids[k - n]) else None
    decreases n
  {
    hide Links, Chain, Ids;
    ChainLinks(ids);
    if n > 0 && k > 0 {
      ChainUp(ids, k - 1, n - 1);
    }
  }

  /** Its last item is as deep as it is long. */
  lemma ChainDepth(ids: seq<string>)
    requires NoDup(ids) && ids != []
    ensures Forest(Chain(ids), |ids|) && !DepthWithin(Chain(ids), |ids| - 1)
  {
    hide Links, Chain, Up, Ids;
    ChainLinks(ids);
    var p := Links(Chain(ids));
    forall id, n: nat | n > 0 ensures Up(p, id, n) != Some(id) {
      NotAbove(ids, id, n);
    }
    forall id | id in Ids(Chain(ids)) ensures exists d: nat :: d < |ids| && RootAbove(p, id, d) {
      var k :| 0 <= k < |ids| && ids[k] == id;
      ChainUp(ids, k, k);
      assert RootAbove(p, id, k);
    }
    var last := ids[|ids| - 1];
    forall d: nat | d < |ids| - 1 ensures !RootAbove(p, last, d) {
      ChainUp(ids, |ids| - 1, d);
    }
    assert last in ids;
  }

  lemma NotAbove(ids: seq<string>, id: string, n: nat)
    requires NoDup(ids) && n > 0
    ensures Up(Links(Chain(ids)), id, n) != Some(id)
  {
    hide Links, Chain, Ids;
    ChainLinks(ids);
    if k :| 0 <= k < |ids| && ids[k] == id {
      ChainUp(ids, k, n);
    } else {
      assert id !in ids;
    }
  }

  function Plan(items: seq<Item>): Record {
    Checklist("c", "Plan", Scope(None, None, None, None, true), [], "", None, false, "me", None, "plan", items)
  }

  /** The last item, under a new title. */
  function Retitle(ids: seq<string>): ItemRequest
    requires |ids| > 5
  {
    ItemRequest("c", Item(ids[|ids| - 1], Some(ids[|ids| - 2]), "new", 0, ""), "", None, None)
  }

  const NO_FAULTS: Faults := Faults(false, false, false, false)

  /** With a limit that allows it, a list of six or more levels can be created, and its last
      item be retitled; after one failed write, repaired from the table, the same request is refused. */
  lemma DeepListFreezes(ids: seq<string>)
    requires NoDup(ids) && |ids| > 5 && "" !in ids
    ensures var c, req := Copies(Engine(map[], |ids|), map[]), Retitle(ids); var change := Puts(req, true, None);
      var a := After(c, Creates(Plan(Chain(ids))), NO_FAULTS);
      && Succeeds(c, Creates(Plan(Chain(ids))), NO_FAULTS) && Succeeds(a, change, NO_FAULTS)
      && var b := After(a, change, NO_FAULTS.(write := true));
         Agree(b) && !Succeeds(b, change, NO_FAULTS)
  {
    var items, req := Chain(ids), Retitle(ids);
    ChainDepth(ids);
    ChainWellFormed(ids);
    Retitled(ids);
    DeepEnough(items, |ids| - 1, 5);
    hide Forest, DepthWithin, WithItem, ItemsWellFormed, Checklists.HasId, Moves;
    PlanFreezes(items, |ids|, req);
  }

  /** A list that was within one limit only is not within a lower one. */
  lemma DeepEnough(items: seq<Item>, max: nat, lower: nat)
    requires !DepthWithin(items, max) && lower <= max
    ensures !DepthWithin(items, lower)
  {
    hide Ids, RootAbove, Links;
  }

  lemma ChainWellFormed(ids: seq<string>)
    requires NoDup(ids) && "" !in ids
    ensures ItemsWellFormed(Chain(ids))
  {
    assert forall k :: 0 <= k < |ids| ==> ids[k] != "";
  }

  lemma Retitled(ids: seq<string>)
    requires NoDup(ids) && |ids| > 5
    ensures Forest(WithItem(Chain(ids), Retitle(ids).item), |ids|) && !Moves(Chain(ids), Retitle(ids).item)
    ensures Checklists.HasId(Chain(ids), Retitle(ids).item.id)
  {
    hide Chain, Links, Ids, Acyclic;
    var items, item := Chain(ids), Retitle(ids).item;
    ChainDepth(ids);
    ChainLinks(ids);
    assert items[|ids| - 1].id == item.id;
    WithItemReplaces(items, item, |ids| - 1);
    SameLinks(items, items[|ids| - 1 := item]);
  }

  lemma PlanFreezes(items: seq<Item>, max: nat, req: ItemRequest)
    requires Forest(items, max) && !DepthWithin(items, 5) && ItemsWellFormed(items)
    requires req.checklistId == "c" && req.item.id != "" && req.item.title != "" && Checklists.HasId(items, req.item.id)
    requires Forest(WithItem(items, req.item), max) && !Moves(items, req.item)
    ensures var c, change := Copies(Engine(map[], max), map[]), Puts(req, true, None);
      var a := After(c, Creates(Plan(items)), NO_FAULTS);
      && Succeeds(c, Creates(Plan(items)), NO_FAULTS) && Succeeds(a, change, NO_FAULTS)
      && var b := After(a, change, NO_FAULTS.(write := true));
         Agree(b) && !Succeeds(b, change, NO_FAULTS)
  {
    hide Forest, DepthWithin, WithItem, ItemsWellFormed, Checklists.HasId, Moves;
    var change := Puts(req, true, None);
    var e := Engine(map["c" := Plan(items)], max);
    assert CreateStep(Engine(map[], max), Plan(items)) == Some(e);
    PlanIsSound(items, max);
    PlanAccepts(items, max, req);
    hide CreateStep, ItemStep, EngineInv, UpdateReaches, ItemReaches;
    RepairFreezesDeepLists(Copies(e, e.records), change, NO_FAULTS.(write := true), req, true, None);
  }

  lemma PlanIsSound(items: seq<Item>, max: nat)
    requires Forest(items, max)
    ensures EngineInv(Engine(map["c" := Plan(items)], max))
  {
    hide Forest;
  }

  lemma PlanAccepts(items: seq<Item>, max: nat, req: ItemRequest)
    requires req.checklistId == "c" && req.item.id != "" && req.item.title != "" && Checklists.HasId(items, req.item.id)
    requires Forest(WithItem(items, req.item), max)
    ensures Stored(Engine(map["c" := Plan(items)], max), Puts(req, true, None)).Some?
  {
    hide Forest, WithItem, Checklists.HasId;
  }
}
