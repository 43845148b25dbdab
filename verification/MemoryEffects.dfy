/** What the persisting operations accept, and what they do to memory and table. */
module MemoryEffects {
  import opened Basics
  import opened MemoryTypes
  import opened Checklists
  import opened MemoryIndex
  import opened MemoryEngine
  import opened MemoryCopies

  /** The map now has just this record under its id, and is otherwise as before. */
  predicate Gains(before: Records, after: Records, r: Record) {
    && r.id in after && after[r.id] == r
    && after.Keys == before.Keys + {r.id} && forall id :: id in before && id != r.id ==> after[id] == before[id]
  }

  /** The map has no record under the id, and is otherwise as before. */
  predicate Loses(before: Records, after: Records, id: string) {
    && id !in after
    && after.Keys == before.Keys - {id} && forall x :: x in after ==> after[x] == before[x]
  }

  // ---- What is accepted ----

  predicate ScopeGiven(s: Scope) {
    ScopeSome(s) && Some("") !in {s.actorId, s.conversationId, s.projectId, s.threadId}
  }

  /** No other checklist with the slug can be seen from the scope of this one, or sees this one from its own. */
  predicate SlugUnseen(records: Records, c: Record)
    requires c.Checklist?
  {
    forall id :: id in records && records[id].Checklist? && records[id].id != c.id && records[id].slug == c.slug ==>
      !Matches(records[id].scope, c.scope) && !Matches(c.scope, records[id].scope)
  }

  ghost predicate GoodChecklist(e: Engine, c: Record)
    requires c.Checklist?
  {
    c.slug != "" && c.title != "" && Forest(c.items, e.maxDepth) && SlugUnseen(e.records, c)
  }

  ghost predicate GoodRecord(e: Engine, r: Record) {
    && r.id != "" && r.title != "" && ScopeGiven(r.scope)
    && (r.Checklist? ==>
          && (forall i :: 0 <= i < |r.items| ==> r.items[i].id != "" && r.items[i].parentId != Some(""))
          && GoodChecklist(e, r))
  }

  lemma CreatedIff(e: Engine, r: Record)
    ensures CreateStep(e, r).Some? <==> r.id !in e.records && GoodRecord(e, r)
  {
    hide Forest, Matches;
    ScopeIff(r.scope);
    if r.Checklist? {
      SlugIff(e.records, r);
    }
  }

  lemma UpdatedIff(e: Engine, r: Record)
    ensures UpdateStep(e, r).Some? <==>
      r.id in e.records && e.records[r.id].Kind() == r.Kind() && GoodRecord(e, r)
  {
    hide Forest, Matches;
    ScopeIff(r.scope);
    if r.Checklist? {
      SlugIff(e.records, r);
    }
  }

  lemma ScopeIff(s: Scope)
    ensures ScopeWellFormed(s) <==> ScopeGiven(s)
    ensures !s.IsEmpty() <==> ScopeSome(s)
  {
  }

  lemma SlugIff(records: Records, c: Record)
    requires c.Checklist?
    ensures SlugFree(records, c) <==> SlugUnseen(records, c)
  {
    hide Matches;
  }

  /** One key of a record's scope, against the same key of a query's. */
  predicate Fits(record: Option<string>, query: Option<string>) {
    record.None? || query == record
  }

  /** Which scopes see which: a record that is only global is seen from everywhere, any other
      from where all its keys have their values, and one without a scope from nowhere. */
  lemma SeenIff(record: Scope, query: Scope)
    ensures Matches(record, query) <==>
      && ScopeSome(record)
      && Fits(record.projectId, query.projectId) && Fits(record.conversationId, query.conversationId)
      && Fits(record.actorId, query.actorId) && Fits(record.threadId, query.threadId)
  {
  }

  predicate ScopeSome(s: Scope) {
    s.actorId.Some? || s.conversationId.Some? || s.projectId.Some? || s.threadId.Some? || s.isGlobal
  }

  // ---- What is stored ----

  ghost predicate ItemsPut(before: seq<Item>, after: seq<Item>, item: Item) {
    || (after == before + [item] && forall j :: 0 <= j < |before| ==> before[j].id != item.id)
    || (exists k :: 0 <= k < |before| && FirstWith(before, k, item.id)
                    && after == before[..k] + [item] + before[k + 1..])
  }

  predicate FirstWith(items: seq<Item>, k: nat, id: string)
    requires k < |items|
  {
    items[k].id == id && forall j :: 0 <= j < k ==> items[j].id != id
  }

  /** The item put over the first with its id, or at the end; and the audit fields of the request. */
  ghost predicate ItemPut(before: Record, after: Record, req: ItemRequest) {
    && before.Checklist? && after.Checklist? && ItemsPut(before.items, after.items, req.item)
    && after.updatedAt == req.updatedAt
    && after.updatedBy == (if req.updatedBy.Some? then req.updatedBy.value else before.updatedBy)
    && after.runId == (if req.runId.Some? then req.runId else before.runId)
    && before == after.(items := before.items, updatedAt := before.updatedAt, updatedBy := before.updatedBy,
                        runId := before.runId)
  }

  lemma {:induction false} PutIs(items: seq<Item>, item: Item)
    ensures ItemsPut(items, WithItem(items, item), item)
  {
    if k :| 0 <= k < |items| && items[k].id == item.id && forall j :: 0 <= j < k ==> items[j].id != item.id {
      WithItemReplaces(items, item, k);
      assert FirstWith(items, k, item.id) && items[k := item] == items[..k] + [item] + items[k + 1..];
    } else {
      NoneHas(items, item.id, |items|);
      WithItemAppends(items, item);
    }
  }

  lemma {:induction false} NoneHas(items: seq<Item>, id: string, n: nat)
    requires n <= |items|
    requires forall k :: 0 <= k < |items| && items[k].id == id ==> exists j :: 0 <= j < k && items[j].id == id
    ensures forall j :: 0 <= j < n ==> items[j].id != id
  {
    if n > 0 {
      NoneHas(items, id, n - 1);
    }
  }

  lemma RequestIs(c: Record, req: ItemRequest)
    requires c.Checklist?
    ensures ItemPut(c, WithItemRequest(c, req), req)
  {
    PutIs(c.items, req.item);
    hide ItemsPut, WithItem;
  }

  // ---- What the operations do ----

  /** The record is in both; or the write has failed, the table is as it was, and memory is loaded
      back from it under a limit of 5, or has dropped the record, or keeps it if even that fails. */
  predicate Stores(c: Copies, u: Copies, r: Record, f: Faults) {
    if !f.write then
      && Gains(c.memory.records, u.memory.records, r) && Gains(c.table, u.table, r)
      && u.memory.maxDepth == c.memory.maxDepth
    else
      && u.table == c.table
      && if !f.reconcile then u.memory == Engine(c.table, 5)
         else
           && u.memory.maxDepth == c.memory.maxDepth
           && if f.rollbackDelete then Gains(c.memory.records, u.memory.records, r)
              else Loses(c.memory.records, u.memory.records, r.id)
  }

  lemma StoresIt(c: Copies, r: Record, f: Faults)
    ensures Stores(c, Persisted(c.memory.(records := c.memory.records[r.id := r]), c.table, r, f), r, f)
  {
  }

  lemma CreateDoes(c: Copies, r: Record, f: Faults)
    ensures var u, good := After(c, Creates(r), f), r.id !in c.memory.records && GoodRecord(c.memory, r);
      && (Succeeds(c, Creates(r), f) <==> good && !f.call && !f.write)
      && if good && !f.call then Stores(c, u, r, f) else u == c
  {
    hide GoodRecord, CreateStep, Persisted, Stores;
    CreatedIff(c.memory, r);
    StoresIt(c, r, f);
  }

  ghost predicate GoodEdit(e: Engine, id: string, kind: string, expected: Option<Scope>, edit: Record -> Record) {
    && id in e.records && e.records[id].Kind() == kind
    && (expected.None? || ScopeVisible(e.records[id].scope, expected.value))
    && var r := edit(e.records[id]);
       r.id in e.records && e.records[r.id].Kind() == r.Kind() && GoodRecord(e, r)
  }

  lemma EditDoes(c: Copies, id: string, kind: string, expected: Option<Scope>, edit: Record -> Record, f: Faults)
    ensures var u, change := After(c, Edits(id, kind, expected, edit), f), Edits(id, kind, expected, edit);
      && (Succeeds(c, change, f) <==> GoodEdit(c.memory, id, kind, expected, edit) && !f.call && !f.write)
      && if GoodEdit(c.memory, id, kind, expected, edit) && !f.call
         then Stores(c, u, edit(c.memory.records[id]), f) else u == c
  {
    hide GoodRecord, UpdateStep, Persisted, Stores, ScopeVisible;
    if id in c.memory.records {
      UpdatedIff(c.memory, edit(c.memory.records[id]));
      StoresIt(c, edit(c.memory.records[id]), f);
    }
  }

  /** The list is there and seen, has the item if it must, and is still good with it. */
  ghost predicate GoodPut(e: Engine, req: ItemRequest, existingOnly: bool, expected: Option<Scope>, r: Record) {
    && req.checklistId in e.records && e.records[req.checklistId].Checklist?
    && (expected.None? || ScopeVisible(e.records[req.checklistId].scope, expected.value))
    && (existingOnly ==> exists i :: 0 <= i < |e.records[req.checklistId].items|
                                     && e.records[req.checklistId].items[i].id == req.item.id)
    && req.item.id != "" && req.item.title != "" && ScopeSome(e.records[req.checklistId].scope)
    && r.Checklist? && GoodChecklist(e, r)
  }

  lemma PutDoes(c: Copies, req: ItemRequest, existingOnly: bool, expected: Option<Scope>, f: Faults)
    returns (r: Record)
    requires KeysMatch(c.memory.records)
    ensures var u, change := After(c, Puts(req, existingOnly, expected), f), Puts(req, existingOnly, expected);
      && (req.checklistId in c.memory.records && c.memory.records[req.checklistId].Checklist? ==>
            ItemPut(c.memory.records[req.checklistId], r, req))
      && (Succeeds(c, change, f) <==> GoodPut(c.memory, req, existingOnly, expected, r) && !f.call && !f.write)
      && if GoodPut(c.memory, req, existingOnly, expected, r) && !f.call then Stores(c, u, r, f) else u == c
  {
    if req.checklistId in c.memory.records && c.memory.records[req.checklistId].Checklist? {
      var before := c.memory.records[req.checklistId];
      r := WithItemRequest(before, req);
      RequestIs(before, req);
      StoresIt(c, r, f);
      PutIff(c.memory, req, before, r);
      hide WithItemRequest, WithItem, GoodChecklist, ItemPut, Persisted, Stores, ScopeVisible, ItemStep;
    } else {
      r :| true;
    }
  }

  lemma PutIff(e: Engine, req: ItemRequest, before: Record, r: Record)
    requires req.checklistId in e.records && e.records[req.checklistId] == before && before.Checklist?
    requires r == WithItemRequest(before, req)
    ensures ItemStep(e, req).Some? <==>
      req.item.id != "" && req.item.title != "" && ScopeSome(before.scope) && GoodChecklist(e, r)
  {
    hide WithItem, Forest, Matches;
    SlugIff(e.records, r);
    SlugIff(e.records, before.(items := r.items));
  }

  /** Both lose the record, and only that; or nothing happens; or only the table loses it, and memory is
      loaded from the table under a limit of 5, or stays as it is if even that fails. */
  lemma DeleteDoes(c: Copies, id: string, f: Faults)
    ensures var u := After(c, Deletes(id), f);
      && (Succeeds(c, Deletes(id), f) <==> !f.write && !f.call)
      && if f.write then u == c
         else
           && Loses(c.table, u.table, id)
           && if !f.call then Loses(c.memory.records, u.memory.records, id) && u.memory.maxDepth == c.memory.maxDepth
              else if !f.reconcile then u.memory == Engine(u.table, 5)
              else u.memory == c.memory
  {
  }

  /** Memory becomes the records, later ones over earlier ones of the same id. */
  lemma LoadDoes(c: Copies, records: seq<Record>, depth: Option<nat>, f: Faults)
    ensures var u := After(c, Loads(records, depth), f);
      && u.table == c.table
      && if f.reconcile then u == c
         else
           && (forall id :: id in u.memory.records <==> exists i :: 0 <= i < |records| && records[i].id == id)
           && (forall i :: 0 <= i < |records| && (forall j :: i < j < |records| ==> records[j].id != records[i].id) ==>
                 u.memory.records[records[i].id] == records[i])
           && u.memory.maxDepth == match depth case None => 5 case Some(d) => if d == 0 then 1 else d
  {
    LoadedIs(records);
  }

  lemma {:induction false} LoadedIs(records: seq<Record>)
    ensures forall id :: id in Loaded(records) <==> exists i :: 0 <= i < |records| && records[i].id == id
    ensures forall i :: 0 <= i < |records| && (forall j :: i < j < |records| ==> records[j].id != records[i].id) ==>
      Loaded(records)[records[i].id] == records[i]
  {
    if records != [] {
      var front, last := records[..|records| - 1], records[|records| - 1];
      LoadedIs(front);
      assert records == front + [last];
    }
  }
}
