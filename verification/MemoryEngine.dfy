/** The engine behind the exports: what it accepts, and what it therefore always stores. */
module MemoryEngine {
  import opened Basics
  import opened MemoryTypes
  import opened ParentChains
  import opened Checklists
  import opened MemoryRanking
  import opened MemoryIndex

  const DEFAULT_MAX_CHECKLIST_DEPTH: nat := 5

  datatype Engine = Engine(records: Records, maxDepth: nat)

  // ---- What a request has to satisfy ----

  predicate ScopeWellFormed(s: Scope) {
    && !s.IsEmpty()
    && s.actorId != Some("") && s.conversationId != Some("") && s.projectId != Some("") && s.threadId != Some("")
  }

  predicate ItemsWellFormed(items: seq<Item>) {
    forall i :: 0 <= i < |items| ==> items[i].id != "" && items[i].parentId != Some("")
  }

  /** The structural checks every record passes before it is looked at. */
  predicate WellFormed(r: Record) {
    && r.id != "" && r.title != "" && ScopeWellFormed(r.scope)
    && (r.Checklist? ==> r.slug != "" && ItemsWellFormed(r.items))
  }

  predicate Overlap(a: Scope, b: Scope) {
    Matches(a, b) || Matches(b, a)
  }

  predicate Clashes(a: Record, b: Record) {
    a.Checklist? && b.Checklist? && a.id != b.id && a.slug == b.slug && Overlap(a.scope, b.scope)
  }

  predicate SlugFree(records: Records, c: Record) {
    forall id :: id in records ==> !Clashes(records[id], c)
  }

  ghost predicate ChecklistSound(c: Record, maxDepth: nat)
    requires c.Checklist?
  {
    !c.scope.IsEmpty() && c.slug != "" && c.title != "" && Forest(c.items, maxDepth)
  }

  ghost predicate ChecklistAccepted(e: Engine, c: Record)
    requires c.Checklist?
  {
    ChecklistSound(c, e.maxDepth) && SlugFree(e.records, c)
  }

  // ---- Steps; None means refused, and nothing changes ----

  ghost function CreateStep(e: Engine, r: Record): Option<Engine> {
    if WellFormed(r) && r.id !in e.records && (r.Checklist? ==> ChecklistAccepted(e, r))
    then Some(e.(records := e.records[r.id := r])) else None
  }

  ghost function UpdateStep(e: Engine, r: Record): Option<Engine> {
    if WellFormed(r) && r.id in e.records && e.records[r.id].Kind() == r.Kind()
       && (r.Checklist? ==> ChecklistAccepted(e, r))
    then Some(e.(records := e.records[r.id := r])) else None
  }

  datatype ItemRequest = ItemRequest(
    checklistId: string, item: Item, updatedAt: string, updatedBy: Option<string>, runId: Option<string>)

  /** Replace the first item with the id, or append. */
  function WithItem(items: seq<Item>, item: Item): seq<Item> {
    if items == [] then [item]
    else if items[0].id == item.id then [item] + items[1..]
    else [items[0]] + WithItem(items[1..], item)
  }

  function WithItemRequest(c: Record, req: ItemRequest): Record
    requires c.Checklist?
  {
    c.(items := WithItem(c.items, req.item), updatedAt := req.updatedAt,
       updatedBy := if req.updatedBy.Some? then req.updatedBy.value else c.updatedBy,
       runId := if req.runId.Some? then req.runId else c.runId)
  }

  ghost function ItemStep(e: Engine, req: ItemRequest): Option<Engine> {
    if req.checklistId !in e.records || !e.records[req.checklistId].Checklist? then None
    else
      var c := e.records[req.checklistId];
      var prospective := c.(items := WithItem(c.items, req.item));
      if req.item.id != "" && req.item.title != "" && ChecklistAccepted(e, prospective)
      then Some(e.(records := e.records[c.id := WithItemRequest(c, req)])) else None
  }

  function ReconcileStep(e: Engine, records: seq<Record>, depth: Option<nat>): Engine {
    Engine(Loaded(records),
           if depth.None? then e.maxDepth else if depth.value < 1 then 1 else depth.value)
  }

  // ---- What is always stored ----

  /** All checklists are bounded forests in a non-empty scope, and no two that could be
      seen from the same place share a slug. */
  ghost predicate EngineInv(e: Engine) {
    && KeysMatch(e.records)
    && (forall id :: id in e.records && e.records[id].Checklist? ==> ChecklistSound(e.records[id], e.maxDepth))
    && (forall a, b | a in e.records && b in e.records :: !Clashes(e.records[a], e.records[b]))
  }

  lemma AcceptedKeeps(e: Engine, r: Record)
    requires EngineInv(e)
    requires r.Checklist? ==> ChecklistAccepted(e, r)
    ensures EngineInv(e.(records := e.records[r.id := r]))
  {
    hide ChecklistSound;
  }

  lemma CreateKeeps(e: Engine, r: Record)
    requires EngineInv(e)
    ensures EngineInv(CreateStep(e, r).UnwrapOr(e))
  {
    if CreateStep(e, r).Some? {
      AcceptedKeeps(e, r);
    }
  }

  lemma UpdateKeeps(e: Engine, r: Record)
    requires EngineInv(e)
    ensures EngineInv(UpdateStep(e, r).UnwrapOr(e))
  {
    if UpdateStep(e, r).Some? {
      AcceptedKeeps(e, r);
    }
  }

  /** The checks run on the prospective list; the stored record differs from it in the audit fields only. */
  lemma ItemKeeps(e: Engine, req: ItemRequest)
    requires EngineInv(e)
    ensures EngineInv(ItemStep(e, req).UnwrapOr(e))
  {
    if ItemStep(e, req).Some? {
      var c := e.records[req.checklistId];
      var changed := WithItemRequest(c, req);
      assert ChecklistAccepted(e, changed) by {
        assert ChecklistAccepted(e, c.(items := WithItem(c.items, req.item)));
        assert SlugFree(e.records, changed);
      }
      AcceptedKeeps(e, changed);
    }
  }

  lemma DeleteKeeps(e: Engine, id: string)
    requires EngineInv(e)
    ensures EngineInv(e.(records := e.records - {id}))
  {
  }

  lemma ForestDeeper(items: seq<Item>, max: nat, deeper: nat)
    requires Forest(items, max) && max <= deeper
    ensures Forest(items, deeper)
  {
    forall id | id in Ids(items) ensures exists d: nat :: d < deeper && RootAbove(Links(items), id, d) {
      var d: nat :| d < max && RootAbove(Links(items), id, d);
    }
  }

  /** Raising the depth limit keeps it; so does loading any snapshot that has it. */
  lemma ReconcileKeeps(e: Engine, records: seq<Record>, depth: Option<nat>)
    requires EngineInv(Engine(Loaded(records), e.maxDepth))
    requires depth.Some? ==> depth.value >= e.maxDepth
    ensures EngineInv(ReconcileStep(e, records, depth))
  {
    var u := ReconcileStep(e, records, depth);
    forall id | id in u.records && u.records[id].Checklist? ensures ChecklistSound(u.records[id], u.maxDepth) {
      ForestDeeper(u.records[id].items, e.maxDepth, u.maxDepth);
    }
  }

  datatype Command =
    | Create(record: Record)
    | Update(record: Record)
    | PutItem(req: ItemRequest)
    | Delete(id: string)
    | Reconcile(records: seq<Record>, depth: Option<nat>)

  ghost function Done(e: Engine, c: Command): Engine {
    match c
    case Create(r) => CreateStep(e, r).UnwrapOr(e)
    case Update(r) => UpdateStep(e, r).UnwrapOr(e)
    case PutItem(req) => ItemStep(e, req).UnwrapOr(e)
    case Delete(id) => e.(records := e.records - {id})
    case Reconcile(records, depth) => ReconcileStep(e, records, depth)
  }

  ghost function DoneAll(e: Engine, cs: seq<Command>): Engine
    decreases |cs|
  {
    if cs == [] then e else DoneAll(Done(e, cs[0]), cs[1..])
  }

  /** Snapshots that are loaded are sound, and never come with a lower depth limit. */
  ghost predicate LoadsSoundly(e: Engine, cs: seq<Command>)
    decreases |cs|
  {
    cs == [] ||
    (&& (cs[0].Reconcile? ==> EngineInv(Engine(Loaded(cs[0].records), e.maxDepth))
                              && (cs[0].depth.Some? ==> cs[0].depth.value >= e.maxDepth))
     && LoadsSoundly(Done(e, cs[0]), cs[1..]))
  }

  /** So it holds in every state an engine reaches. */
  lemma {:induction false} EngineStaysSound(e: Engine, cs: seq<Command>)
    requires EngineInv(e) && LoadsSoundly(e, cs)
    ensures EngineInv(DoneAll(e, cs))
    decreases |cs|
  {
    if cs != [] {
      match cs[0] {
        case Create(r) => CreateKeeps(e, r);
        case Update(r) => UpdateKeeps(e, r);
        case PutItem(req) => ItemKeeps(e, req);
        case Delete(id) => DeleteKeeps(e, id);
        case Reconcile(records, depth) => ReconcileKeeps(e, records, depth);
      }
      hide EngineInv, CreateStep, UpdateStep, ItemStep;
      EngineStaysSound(Done(e, cs[0]), cs[1..]);
    }
  }

  /** Reconciling with a lower limit keeps it only if no stored checklist is too deep for it. */
  lemma LoweringKeepsIff(e: Engine, records: seq<Record>, depth: nat)
    requires EngineInv(Engine(Loaded(records), e.maxDepth))
    ensures EngineInv(ReconcileStep(e, records, Some(depth))) <==>
      forall id :: id in Loaded(records) && Loaded(records)[id].Checklist?
                   ==> DepthWithin(Loaded(records)[id].items, if depth < 1 then 1 else depth)
  {
  }

  // ---- The exports ----

  class EngineState {
    const index: InMemoryIndex
    var maxDepth: nat

    ghost function View(): Engine
      reads this, index
    {
      Engine(index.byId, maxDepth)
    }

    ghost predicate Valid()
      reads this, index
    {
      index.Valid()
    }

    constructor (norm: Normalize)
      ensures Valid() && fresh(index) && View() == Engine(map[], DEFAULT_MAX_CHECKLIST_DEPTH) && EngineInv(View())
    {
      index := new InMemoryIndex(norm);
      maxDepth := DEFAULT_MAX_CHECKLIST_DEPTH;
    }

    method ValidateChecklist(c: Record) returns (ok: bool)
      requires Valid() && c.Checklist?
      ensures ok <==> ChecklistAccepted(View(), c)
    {
      if c.scope.IsEmpty() || c.slug == "" || c.title == "" {
        return false;
      }
      var left := index.byId.Keys;
      while left != {}
        invariant left <= index.byId.Keys
        invariant forall id :: id in index.byId && id !in left ==> !Clashes(index.byId[id], c)
        decreases left
      {
        var id :| id in left;
        left := left - {id};
        var existing := index.byId[id];
        if existing.Checklist? && existing.id != c.id {
          if existing.slug == c.slug && (Matches(existing.scope, c.scope) || Matches(c.scope, existing.scope)) {
            return false;
          }
        }
      }
      ok := ValidateItems(c.items, maxDepth);
    }

    method Create(r: Record) returns (ok: bool)
      requires Valid()
      modifies index
      ensures Valid() && ok == CreateStep(old(View()), r).Some?
      ensures View() == if ok then CreateStep(old(View()), r).value else old(View())
    {
      if !WellFormed(r) || r.id in index.byId {
        return false;
      }
      if r.Checklist? {
        ok := ValidateChecklist(r);
        if !ok {
          return;
        }
      }
      index.Insert(r);
      ok := true;
    }

    method Update(r: Record) returns (ok: bool)
      requires Valid()
      modifies index
      ensures Valid() && ok == UpdateStep(old(View()), r).Some?
      ensures View() == if ok then UpdateStep(old(View()), r).value else old(View())
    {
      if !WellFormed(r) || r.id !in index.byId || index.byId[r.id].Kind() != r.Kind() {
        return false;
      }
      if r.Checklist? {
        ok := ValidateChecklist(r);
        if !ok {
          return;
        }
      }
      index.Insert(r);
      ok := true;
    }

    method AddChecklistItem(req: ItemRequest) returns (r: Option<Record>)
      requires Valid()
      modifies index
      ensures Valid() && r.Some? == ItemStep(old(View()), req).Some?
      ensures View() == if r.Some? then ItemStep(old(View()), req).value else old(View())
      ensures r.Some? ==> r.value.id == req.checklistId && View().records == old(View().records)[r.value.id := r.value]
    {
      if req.checklistId !in index.byId {
        return None;
      }
      var checklist := index.byId[req.checklistId];
      if !checklist.Checklist? || req.item.id == "" || req.item.title == "" {
        return None;
      }
      var items := PlaceItem(checklist.items, req.item);
      var ok := ValidateChecklist(checklist.(items := items));
      if !ok {
        return None;
      }
      var changed := checklist.(items := items, updatedAt := req.updatedAt,
                                updatedBy := if req.updatedBy.Some? then req.updatedBy.value else checklist.updatedBy,
                                runId := if req.runId.Some? then req.runId else checklist.runId);
      index.Insert(changed);
      return Some(changed);
    }

    method PlaceItem(items: seq<Item>, item: Item) returns (r: seq<Item>)
      ensures r == WithItem(items, item)
    {
      for i := 0 to |items|
        invariant forall j :: 0 <= j < i ==> items[j].id != item.id
      {
        if items[i].id == item.id {
          WithItemReplaces(items, item, i);
          return items[i := item];
        }
      }
      WithItemAppends(items, item);
      return items + [item];
    }

    method Delete(id: string) returns (deleted: bool)
      requires Valid()
      modifies index
      ensures Valid() && deleted == (id in old(index.byId))
      ensures View() == old(View().(records := View().records - {id}))
    {
      var removed := index.Remove(id);
      deleted := removed.Some?;
    }

    method Reconcile(records: seq<Record>, depth: Option<nat>)
      requires Valid()
      modifies this, index
      ensures Valid() && View() == ReconcileStep(old(View()), records, depth)
    {
      if depth.Some? {
        maxDepth := if depth.value < 1 then 1 else depth.value;
      }
      index.Rebuild(records);
    }
  }

  lemma {:induction false} WithItemReplaces(items: seq<Item>, item: Item, i: nat)
    requires i < |items| && items[i].id == item.id && forall j :: 0 <= j < i ==> items[j].id != item.id
    ensures WithItem(items, item) == items[i := item]
  {
    if i > 0 {
      WithItemReplaces(items[1..], item, i - 1);
      assert items[i := item] == [items[0]] + items[1..][i - 1 := item];
    }
  }

  lemma {:induction false} WithItemAppends(items: seq<Item>, item: Item)
    requires forall j :: 0 <= j < |items| ==> items[j].id != item.id
    ensures WithItem(items, item) == items + [item]
  {
    if items != [] {
      WithItemAppends(items[1..], item);
      assert items + [item] == [items[0]] + (items[1..] + [item]);
    }
  }
}
