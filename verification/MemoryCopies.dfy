/**
 Memory and the durable table as two maps, and what each operation makes of them when
 any call into the engine and any write of the table may fail.
 */
module MemoryCopies {
  import opened Basics
  import opened MemoryTypes
  import opened MemoryIndex
  import opened MemoryEngine

  /** Which calls fail for reasons of their own. */
  datatype Faults = Faults(call: bool, write: bool, reconcile: bool, rollbackDelete: bool)

  // ---- What gets through to the engine ----

  /** The scope guard of the shim. */
  predicate ScopeVisible(record: Scope, query: Scope) {
    || record.OnlyGlobal()
    || (&& (record.projectId.Some? ==> query.projectId == record.projectId)
        && (record.conversationId.Some? ==> query.conversationId == record.conversationId)
        && (record.actorId.Some? ==> query.actorId == record.actorId)
        && (record.threadId.Some? ==> query.threadId == record.threadId))
  }

  /** On stored scopes it is the engine's own rule. */
  lemma ScopeGuardsAgree(record: Scope, query: Scope)
    ensures ScopeVisible(record, query) && !record.IsEmpty() <==> Matches(record, query)
  {
  }

  /** The update gets through the shim's guards and the engine's checks. */
  ghost predicate UpdateReaches(e: Engine, id: string, kind: string, expected: Option<Scope>,
                                edit: Record -> Record)
  {
    && id in e.records && e.records[id].Kind() == kind
    && (expected.None? || ScopeVisible(e.records[id].scope, expected.value))
    && UpdateStep(e, edit(e.records[id])).Some?
  }

  /** The item request gets through the shim's guards and the engine's checks. */
  ghost predicate ItemReaches(e: Engine, req: ItemRequest, existingOnly: bool, expected: Option<Scope>) {
    && req.checklistId in e.records && e.records[req.checklistId].Checklist?
    && (expected.None? || ScopeVisible(e.records[req.checklistId].scope, expected.value))
    && (existingOnly ==> Checklists.HasId(e.records[req.checklistId].items, req.item.id))
    && ItemStep(e, req).Some?
  }

  lemma ItemStored(e: Engine, req: ItemRequest, r: Record, stored: Engine)
    requires KeysMatch(e.records) && ItemStep(e, req) == Some(stored)
    requires stored.records == e.records[req.checklistId := r]
    ensures r == WithItemRequest(e.records[req.checklistId], req) && r.id == req.checklistId
    ensures stored == e.(records := e.records[r.id := r])
  {
    assert stored.records[req.checklistId] == r;
  }

  // ---- The operations ----

  datatype Copies = Copies(memory: Engine, table: Records)

  datatype Change =
    | Creates(record: Record)
    | Edits(id: string, kind: string, expected: Option<Scope>, edit: Record -> Record)
    | Puts(req: ItemRequest, existingOnly: bool, expected: Option<Scope>)
    | Deletes(id: string)
    | Loads(records: seq<Record>, depth: Option<nat>)

  ghost predicate Agree(c: Copies) {
    c.memory.records == c.table
  }

  /** The record that memory stores, if it accepts the change. */
  ghost function Stored(e: Engine, change: Change): Option<Record> {
    match change
    case Creates(r) => if CreateStep(e, r).Some? then Some(r) else None
    case Edits(id, kind, expected, edit) =>
      if UpdateReaches(e, id, kind, expected, edit) then Some(edit(e.records[id])) else None
    case Puts(req, existingOnly, expected) =>
      if ItemReaches(e, req, existingOnly, expected)
      then Some(WithItemRequest(e.records[req.checklistId], req)) else None
    case Deletes(_) => None
    case Loads(_, _) => None
  }

  /** Loading takes the limit back to 5 unless the caller names one. */
  function LoadedEngine(records: Records, depth: Option<nat>): Engine {
    Engine(records, if depth.None? then 5 else if depth.value < 1 then 1 else depth.value)
  }

  /** Write the record through, or load memory back from the table; if even that fails, drop the record. */
  function Persisted(memory: Engine, table: Records, r: Record, f: Faults): Copies {
    if !f.write then Copies(memory, table[r.id := r])
    else if !f.reconcile then Copies(LoadedEngine(table, None), table)
    else if f.rollbackDelete then Copies(memory, table)
    else Copies(memory.(records := memory.records - {r.id}), table)
  }

  ghost function After(c: Copies, change: Change, f: Faults): Copies {
    match change
    case Deletes(id) =>
      var table := c.table - {id};
      if f.write then c
      else if !f.call then Copies(c.memory.(records := c.memory.records - {id}), table)
      else if !f.reconcile then Copies(LoadedEngine(table, None), table)
      else c.(table := table)
    case Loads(records, depth) =>
      if f.reconcile then c else c.(memory := LoadedEngine(Loaded(records), depth))
    case _ =>
      var stored := Stored(c.memory, change);
      if f.call || stored.None? then c
      else
        var r := stored.value;
        Persisted(c.memory.(records := c.memory.records[r.id := r]), c.table, r, f)
  }

  ghost predicate Succeeds(c: Copies, change: Change, f: Faults) {
    match change
    case Deletes(_) => !f.write && !f.call
    case Loads(_, _) => !f.reconcile
    case _ => !f.call && !f.write && Stored(c.memory, change).Some?
  }

  // ---- When the copies come apart ----

  /** From copies that agree: a write and its repair both fail, unless the fallback leaves just what the
      table has; or the table drops a row that then stays in memory; or something else is loaded. */
  ghost predicate Splits(c: Copies, change: Change, f: Faults) {
    match change
    case Deletes(id) => !f.write && f.call && f.reconcile && id in c.table
    case Loads(records, _) => !f.reconcile && Loaded(records) != c.table
    case _ =>
      var stored := Stored(c.memory, change);
      && f.write && f.reconcile && !f.call && stored.Some?
      && var r := stored.value;
         if f.rollbackDelete then r.id !in c.table || c.table[r.id] != r else r.id in c.table
  }

  lemma AgreeUnlessSplit(c: Copies, change: Change, f: Faults)
    requires Agree(c)
    ensures Agree(After(c, change, f)) <==> !Splits(c, change, f)
  {
    match change {
      case Deletes(id) =>
        assert id !in c.table - {id} && (id !in c.table ==> c.table - {id} == c.table);
      case Loads(_, _) =>
      case _ =>
        var stored := Stored(c.memory, change);
        if stored.Some? {
          StoredEither(c.table, stored.value);
        }
    }
  }

  lemma StoredEither(table: Records, r: Record)
    ensures table[r.id := r] == table <==> r.id in table && table[r.id] == r
    ensures table[r.id := r] - {r.id} == table <==> r.id !in table
  {
    assert r.id in table[r.id := r] && r.id !in table[r.id := r] - {r.id};
    if r.id !in table {
      assert table[r.id := r] - {r.id} == table;
    } else if table[r.id] == r {
      assert table[r.id := r] == table;
    }
  }

  /** For an item: only if the write and its repair both fail, and then unless nothing had changed
      in memory or the fallback fails too. */
  lemma PutSplits(c: Copies, req: ItemRequest, existingOnly: bool, expected: Option<Scope>, f: Faults)
    requires Agree(c) && KeysMatch(c.table)
    ensures Splits(c, Puts(req, existingOnly, expected), f) <==>
      && f.write && f.reconcile && !f.call && ItemReaches(c.memory, req, existingOnly, expected)
      && !(f.rollbackDelete && ItemStep(c.memory, req) == Some(c.memory))
  {
    var stored := Stored(c.memory, Puts(req, existingOnly, expected));
    if stored.Some? {
      StoredEither(c.table, stored.value);
    }
  }

  // ---- Over a whole history ----

  datatype Attempt = Attempt(change: Change, faults: Faults)

  ghost function AfterAll(c: Copies, history: seq<Attempt>): Copies
    decreases |history|
  {
    if history == [] then c
    else AfterAll(After(c, history[0].change, history[0].faults), history[1..])
  }

  ghost predicate NeverSplits(c: Copies, history: seq<Attempt>)
    decreases |history|
  {
    history == [] ||
    (&& !Splits(c, history[0].change, history[0].faults)
     && NeverSplits(After(c, history[0].change, history[0].faults), history[1..]))
  }

  ghost predicate AgreeThroughout(c: Copies, history: seq<Attempt>) {
    forall k :: 0 <= k <= |history| ==> Agree(AfterAll(c, history[..k]))
  }

  /** The copies agree after each operation of a history exactly if no operation of it splits them. */
  lemma {:induction false} AgreeThroughoutIff(c: Copies, history: seq<Attempt>)
    requires Agree(c)
    ensures AgreeThroughout(c, history) <==> NeverSplits(c, history)
    decreases |history|
  {
    hide Splits, After;
    if history != [] {
      var change, f, rest := history[0].change, history[0].faults, history[1..];
      var next := After(c, change, f);
      AgreeUnlessSplit(c, change, f);
      forall k | 0 <= k <= |rest| ensures AfterAll(c, history[..k + 1]) == AfterAll(next, rest[..k]) {
        assert history[..k + 1][0] == history[0] && history[..k + 1][1..] == rest[..k];
      }
      assert AfterAll(next, rest[..0]) == next;
      if Agree(next) {
        AgreeThroughoutIff(next, rest);
        if AgreeThroughout(c, history) {
          forall k | 0 <= k <= |rest| ensures Agree(AfterAll(next, rest[..k])) {
            assert Agree(AfterAll(c, history[..k + 1]));
          }
        } else {
          var k :| 0 <= k <= |history| && !Agree(AfterAll(c, history[..k]));
          assert AfterAll(c, history[..0]) == c;
          assert AfterAll(c, history[..k - 1 + 1]) == AfterAll(next, rest[..k - 1]);
        }
      } else {
        assert !Agree(AfterAll(c, history[..0 + 1]));
      }
    }
  }

  /** No write fails together with its repair, and only rehydration loads records. */
  predicate Repaired(a: Attempt) {
    && !a.change.Loads?
    && !(a.faults.reconcile && if a.change.Deletes? then a.faults.call else a.faults.write)
  }

  /** So with a working repair they always agree, whatever else fails. */
  lemma {:induction false} RepairsSuffice(c: Copies, history: seq<Attempt>)
    requires Agree(c) && forall i :: 0 <= i < |history| ==> Repaired(history[i])
    ensures NeverSplits(c, history) && AgreeThroughout(c, history) && Agree(AfterAll(c, history))
    decreases |history|
  {
    if history != [] {
      var change, f := history[0].change, history[0].faults;
      assert Repaired(history[0]);
      AgreeUnlessSplit(c, change, f);
      hide After;
      RepairsSuffice(After(c, change, f), history[1..]);
    }
    hide After, Splits, Repaired;
    AgreeThroughoutIff(c, history);
    assert history[..|history|] == history;
  }

  /** And copies that came apart meet again: at the next rehydration, or at the next failing write that is
      repaired, and they stay together while repairs work. */
  lemma TogetherAgain(c: Copies, first: Attempt, later: seq<Attempt>)
    requires !first.faults.reconcile
    requires || (first.change.Loads? && Loaded(first.change.records) == c.table)
             || (first.change.Deletes? && first.faults.call && !first.faults.write)
             || (first.faults.write && !first.faults.call && Stored(c.memory, first.change).Some?)
    requires forall i :: 0 <= i < |later| ==> Repaired(later[i])
    ensures Agree(AfterAll(c, [first] + later))
  {
    assert Agree(After(c, first.change, first.faults));
    RepairsSuffice(After(c, first.change, first.faults), later);
    assert ([first] + later)[1..] == later;
  }

  // ---- The failing case ----

  const NOTE: Record :=
    Todo("t", "Buy milk", Scope(None, None, None, None, true), [], "", None, "me", None, "two litres")

  /** An update whose write fails, and whose repair fails too: memory has lost the record
      that the table still has. */
  lemma FailedRepairLosesRecord()
    ensures var c, ok := Copies(Engine(map[], 5), map[]), Faults(false, false, false, false);
      var change := Edits("t", "todo", None, (r: Record) => r);
      var a := After(c, Creates(NOTE), ok);
      && Succeeds(c, Creates(NOTE), ok) && Agree(a) && a.table == map["t" := NOTE]
      && var b := After(a, change, ok.(write := true, reconcile := true));
         b.memory.records == map[] && b.table == map["t" := NOTE]
  {
    var c, ok := Copies(Engine(map[], 5), map[]), Faults(false, false, false, false);
    var e := Engine(map["t" := NOTE], 5);
    assert CreateStep(c.memory, NOTE) == Some(e);
    assert e.records[NOTE.id := NOTE] == e.records;
    assert UpdateStep(e, NOTE) == Some(e);
    assert After(c, Creates(NOTE), ok) == Copies(e, e.records);
    StoredEither(map[], NOTE);
  }
}
