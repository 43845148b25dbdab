/**
 Three copies of the records: the engine's index, the shim's cache, the durable table.
 Operations run one after the other; any call into the engine and any write of the
 table may fail, and then changes nothing by itself.
 */
module MemoryPersistence {
  import opened Basics
  import opened MemoryTypes
  import opened MemoryRanking
  import opened MemoryIndex
  import opened MemoryEngine
  import opened MemoryCopies
  import opened MemoryEffects

  // ---- The durable table ----

  class StructuredMemoryDatabase {
    var rows: Records

    constructor ()
      ensures rows == map[]
    {
      rows := map[];
    }

    method WriteRecord(r: Record, fails: bool) returns (ok: bool)
      modifies this
      ensures ok == !fails && rows == if ok then old(rows)[r.id := r] else old(rows)
    {
      ok := !fails;
      if ok {
        rows := rows[r.id := r];
      }
    }

    method DeleteRecord(id: string, fails: bool) returns (ok: bool)
      modifies this
      ensures ok == !fails && rows == if ok then old(rows) - {id} else old(rows)
    {
      ok := !fails;
      if ok {
        rows := rows - {id};
      }
    }

    /** Every row, in some order. */
    method LoadAllRecords() returns (records: seq<Record>)
      requires KeysMatch(rows)
      ensures Loaded(records) == rows
    {
      records := [];
      var left := rows.Keys;
      while left != {}
        invariant left <= rows.Keys
        invariant Loaded(records) == rows - left
        decreases left
      {
        var id :| id in left;
        left := left - {id};
        assert (records + [rows[id]])[..|records|] == records;
        records := records + [rows[id]];
      }
      assert rows - {} == rows;
    }
  }

  // ---- The shim ----

  class RustMemoryEngine {
    const wasm: EngineState
    var cache: Records

    ghost predicate Valid()
      reads this, wasm, wasm.index
    {
      wasm.Valid()
    }

    ghost predicate Synced()
      reads this, wasm, wasm.index
    {
      Valid() && cache == wasm.index.byId
    }

    constructor (norm: Normalize)
      ensures Synced() && cache == map[] && fresh(wasm) && fresh(wasm.index)
      ensures EngineInv(wasm.View())
    {
      wasm := new EngineState(norm);
      cache := map[];
    }

    method Create(r: Record, fails: bool) returns (ok: bool)
      requires Synced()
      modifies this, wasm.index
      ensures Synced() && wasm.maxDepth == old(wasm.maxDepth)
      ensures ok ==> r.id !in old(cache) && cache == old(cache)[r.id := r]
      ensures ok == (!fails && CreateStep(old(wasm.View()), r).Some?)
      ensures !ok ==> cache == old(cache)
    {
      if fails {
        return false;
      }
      ok := wasm.Create(r);
      if ok {
        cache := cache[r.id := r];
      }
    }

    /** The new record is built from the cached one; `edit` stands for the patch. */
    method Update(id: string, kind: string, expected: Option<Scope>, edit: Record -> Record, fails: bool)
      returns (r: Option<Record>)
      requires Synced()
      requires forall x: Record :: edit(x).id == x.id && edit(x).Kind() == x.Kind()
      modifies this, wasm.index
      ensures Synced() && wasm.maxDepth == old(wasm.maxDepth)
      ensures r.Some? <==> !fails && UpdateReaches(old(wasm.View()), id, kind, expected, edit)
      ensures r.Some? ==> r.value == edit(old(cache)[id]) && r.value.id == id && cache == old(cache)[id := r.value]
      ensures r.None? ==> cache == old(cache)
    {
      if id !in cache || cache[id].Kind() != kind {
        return None;
      }
      var existing := cache[id];
      if expected.Some? && !ScopeVisible(existing.scope, expected.value) {
        return None;
      }
      if fails {
        return None;
      }
      var next := edit(existing);
      var ok := wasm.Update(next);
      if !ok {
        return None;
      }
      cache := cache[next.id := next];
      return Some(next);
    }

    /** Adds a fresh item, or replaces one that the cached checklist has. */
    method PutItem(req: ItemRequest, existingOnly: bool, expected: Option<Scope>, fails: bool)
      returns (r: Option<Record>)
      requires Synced()
      modifies this, wasm.index
      ensures Synced() && wasm.maxDepth == old(wasm.maxDepth)
      ensures r.Some? <==> !fails && ItemReaches(old(wasm.View()), req, existingOnly, expected)
      ensures r.Some? ==> req.checklistId in old(cache) && r.value.id == req.checklistId
                          && cache == old(cache)[req.checklistId := r.value]
                          && ItemStep(old(wasm.View()), req) == Some(wasm.View())
      ensures r.None? ==> cache == old(cache)
    {
      if req.checklistId !in cache || !cache[req.checklistId].Checklist? {
        return None;
      }
      var existing := cache[req.checklistId];
      if expected.Some? && !ScopeVisible(existing.scope, expected.value) {
        return None;
      }
      if existingOnly && !Checklists.HasId(existing.items, req.item.id) {
        return None;
      }
      if fails {
        return None;
      }
      r := wasm.AddChecklistItem(req);
      if r.Some? {
        cache := cache[r.value.id := r.value];
      }
    }

    method Delete(id: string, fails: bool) returns (ok: bool)
      requires Synced()
      modifies this, wasm.index
      ensures Synced() && wasm.maxDepth == old(wasm.maxDepth)
      ensures ok == !fails && cache == if ok then old(cache) - {id} else old(cache)
    {
      if fails {
        return false;
      }
      var _ := wasm.Delete(id);
      cache := cache - {id};
      ok := true;
    }

    /** Both become the snapshot, however far apart they were. */
    method Reconcile(records: seq<Record>, depth: Option<nat>, fails: bool) returns (ok: bool)
      requires Valid()
      modifies this, wasm, wasm.index
      ensures Valid() && ok == !fails
      ensures wasm.View() == if ok then LoadedEngine(Loaded(records), depth) else old(wasm.View())
      ensures cache == if ok then Loaded(records) else old(cache)
    {
      if fails {
        return false;
      }
      wasm.Reconcile(records, Some(if depth.Some? then depth.value else 5));
      ghost var engine := wasm.View();
      cache := map[];
      for i := 0 to |records|
        invariant wasm.Valid() && wasm.View() == engine
        invariant cache == Loaded(records[..i])
      {
        assert records[..i + 1][..i] == records[..i];
        cache := cache[records[i].id := records[i]];
      }
      assert records[..|records|] == records;
      ok := true;
    }
  }

  // ---- The decorator ----

  class PersistingMemoryEngine {
    const inner: RustMemoryEngine
    const database: StructuredMemoryDatabase

    ghost predicate Valid()
      reads this, inner, inner.wasm, inner.wasm.index, database
    {
      inner.Synced() && KeysMatch(database.rows)
    }

    ghost function View(): Copies
      reads this, inner, inner.wasm, inner.wasm.index, database
    {
      Copies(inner.wasm.View(), database.rows)
    }

    /** All three copies are the same map. */
    ghost predicate Agrees()
      reads this, inner, inner.wasm, inner.wasm.index, database
    {
      && Valid()
      && inner.cache == database.rows && inner.wasm.index.byId == database.rows
    }

    /** Index, cache and table have gained the record, and nothing else. */
    ghost predicate AllGained(index: Records, cache: Records, rows: Records, r: Record)
      reads this, inner, inner.wasm, inner.wasm.index, database
    {
      Gains(index, inner.wasm.index.byId, r) && Gains(cache, inner.cache, r) && Gains(rows, database.rows, r)
    }

    ghost predicate AllLost(index: Records, cache: Records, rows: Records, id: string)
      reads this, inner, inner.wasm, inner.wasm.index, database
    {
      Loses(index, inner.wasm.index.byId, id) && Loses(cache, inner.cache, id) && Loses(rows, database.rows, id)
    }

    ghost predicate AllKept(index: Records, cache: Records, rows: Records)
      reads this, inner, inner.wasm, inner.wasm.index, database
    {
      inner.wasm.index.byId == index && inner.cache == cache && database.rows == rows
    }

    constructor (norm: Normalize)
      ensures Agrees() && database.rows == map[]
      ensures fresh(inner) && fresh(inner.wasm) && fresh(inner.wasm.index) && fresh(database)
    {
      var engine := new RustMemoryEngine(norm);
      var table := new StructuredMemoryDatabase();
      inner, database := engine, table;
      new;
      assert engine.Synced();
    }

    method Persist(r: Record, f: Faults) returns (ok: bool)
      requires Valid()
      modifies inner, inner.wasm, inner.wasm.index, database
      ensures Valid() && ok == !f.write
      ensures View() == Persisted(old(inner.wasm.View()), old(database.rows), r, f)
    {
      ok := database.WriteRecord(r, f.write);
      if !ok {
        var records := database.LoadAllRecords();
        var restored := inner.Reconcile(records, None, f.reconcile);
        if !restored {
          var _ := inner.Delete(r.id, f.rollbackDelete);
        }
      }
    }

    /** A failed create leaves the copies apart only if the write, the reconcile and the delete all fail. */
    method Create(r: Record, f: Faults) returns (ok: bool)
      requires Valid()
      modifies inner, inner.wasm, inner.wasm.index, database
      ensures Valid() && View() == After(old(View()), Creates(r), f)
      ensures ok == Succeeds(old(View()), Creates(r), f)
      ensures ok ==> AllGained(old(inner.wasm.index.byId), old(inner.cache), old(database.rows), r)
      ensures !ok && !f.write ==> AllKept(old(inner.wasm.index.byId), old(inner.cache), old(database.rows))
      ensures old(Agrees()) ==>
        (Agrees() <==> !(!f.call && CreateStep(old(inner.wasm.View()), r).Some?
                         && f.write && f.reconcile && f.rollbackDelete))
    {
      ghost var before := View();
      ok := inner.Create(r, f.call);
      if ok {
        ok := Persist(r, f);
      }
      if Agree(before) {
        AgreeUnlessSplit(before, Creates(r), f);
      }
      CreateDoes(before, r, f);
    }

    /** A failed update leaves them apart as soon as write and reconcile both fail: the
        fallback then deletes the previous value from memory, but not from the table. */
    method Update(id: string, kind: string, expected: Option<Scope>, edit: Record -> Record, f: Faults)
      returns (ok: bool)
      requires Valid()
      requires forall x: Record :: edit(x).id == x.id && edit(x).Kind() == x.Kind()
      modifies inner, inner.wasm, inner.wasm.index, database
      ensures Valid() && View() == After(old(View()), Edits(id, kind, expected, edit), f)
      ensures ok == Succeeds(old(View()), Edits(id, kind, expected, edit), f)
      ensures ok ==>
        id in old(inner.cache)
        && AllGained(old(inner.wasm.index.byId), old(inner.cache), old(database.rows), edit(old(inner.cache)[id]))
      ensures !ok && !f.write ==> AllKept(old(inner.wasm.index.byId), old(inner.cache), old(database.rows))
      ensures old(Agrees()) && !(f.write && f.reconcile) ==> Agrees()
      ensures old(Agrees()) && f.write && f.reconcile ==>
        var done := UpdateReaches(old(inner.wasm.View()), id, kind, expected, edit);
        Agrees() <==> f.call || !done || (f.rollbackDelete && edit(old(database.rows)[id]) == old(database.rows)[id])
    {
      hide UpdateStep, ScopeVisible, Gains, Loses, GoodEdit;
      ghost var before := View();
      var r := inner.Update(id, kind, expected, edit, f.call);
      if r.Some? {
        ok := Persist(r.value, f);
      } else {
        ok := false;
      }
      if Agree(before) {
        AgreeUnlessSplit(before, Edits(id, kind, expected, edit), f);
      }
      EditDoes(before, id, kind, expected, edit, f);
    }

    /** The same for an item: write and reconcile both failing leaves the copies apart,
        unless nothing had changed in memory or the fallback fails too. */
    method PutItem(req: ItemRequest, existingOnly: bool, expected: Option<Scope>, f: Faults) returns (ok: bool)
      requires Valid()
      modifies inner, inner.wasm, inner.wasm.index, database
      ensures Valid() && View() == After(old(View()), Puts(req, existingOnly, expected), f)
      ensures ok == Succeeds(old(View()), Puts(req, existingOnly, expected), f)
      ensures ok ==> req.checklistId in old(inner.cache) && exists r ::
        ItemPut(old(inner.cache)[req.checklistId], r, req)
        && AllGained(old(inner.wasm.index.byId), old(inner.cache), old(database.rows), r)
      ensures !ok && !f.write ==> AllKept(old(inner.wasm.index.byId), old(inner.cache), old(database.rows))
      ensures old(Agrees()) && !(f.write && f.reconcile) ==> Agrees()
      ensures old(Agrees()) && f.write && f.reconcile ==>
        var before := old(inner.wasm.View());
        Agrees() <==> f.call || !ItemReaches(before, req, existingOnly, expected)
                      || (f.rollbackDelete && ItemStep(before, req) == Some(before))
    {
      hide Splits, ItemReaches, ItemStep, WithItemRequest, Gains, Loses, ItemPut, GoodChecklist, ScopeVisible;
      ghost var before := View();
      var r := inner.PutItem(req, existingOnly, expected, f.call);
      if r.Some? {
        ItemStored(before.memory, req, r.value, inner.wasm.View());
        ok := Persist(r.value, f);
      } else {
        ok := false;
      }
      if Agree(before) {
        AgreeUnlessSplit(before, Puts(req, existingOnly, expected), f);
        PutSplits(before, req, existingOnly, expected, f);
      }
      ghost var put := PutDoes(before, req, existingOnly, expected, f);
    }

    /** The table goes first: a failing delete of the memory copies is repaired from it. */
    method Delete(id: string, f: Faults) returns (ok: bool)
      requires Valid()
      modifies inner, inner.wasm, inner.wasm.index, database
      ensures Valid() && View() == After(old(View()), Deletes(id), f)
      ensures ok == Succeeds(old(View()), Deletes(id), f)
      ensures ok ==> AllLost(old(inner.wasm.index.byId), old(inner.cache), old(database.rows), id)
      ensures f.write ==> AllKept(old(inner.wasm.index.byId), old(inner.cache), old(database.rows))
      ensures old(Agrees()) ==> (Agrees() <==> !(!f.write && f.call && f.reconcile && id in old(database.rows)))
    {
      ghost var before := View();
      ok := database.DeleteRecord(id, f.write);
      if ok {
        ok := inner.Delete(id, f.call);
        if !ok {
          var records := database.LoadAllRecords();
          var _ := inner.Reconcile(records, None, f.reconcile);
        }
      }
      if Agree(before) {
        AgreeUnlessSplit(before, Deletes(id), f);
      }
      DeleteDoes(before, id, f);
    }

    /** Any snapshot goes into memory, not into the table: they agree if it is what the table holds. */
    method Reconcile(records: seq<Record>, depth: Option<nat>, f: Faults) returns (ok: bool)
      requires inner.Valid() && KeysMatch(database.rows)
      modifies inner, inner.wasm, inner.wasm.index
      ensures inner.Valid() && View() == After(old(View()), Loads(records, depth), f)
      ensures ok == Succeeds(old(View()), Loads(records, depth), f)
      ensures ok ==> Valid() && (Agrees() <==> Loaded(records) == database.rows)
      ensures !ok ==> inner.cache == old(inner.cache)
    {
      ok := inner.Reconcile(records, depth, f.reconcile);
    }

    /** Loading the table into memory brings the copies together from wherever they were. */
    method Rehydrate(depth: Option<nat>, f: Faults) returns (ok: bool)
      requires inner.Valid() && KeysMatch(database.rows)
      modifies inner, inner.wasm, inner.wasm.index
      ensures database.rows == old(database.rows) && ok == !f.reconcile
      ensures ok ==> Agrees()
    {
      var records := database.LoadAllRecords();
      ok := Reconcile(records, depth, f);
    }
  }
}
