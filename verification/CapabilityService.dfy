/** The lifecycle service: each call's real steps, in the order in which they can fail. */
module CapabilityService {
  import opened Basics
  import opened CapabilityState
  import opened CapabilityInvariant

  /** The capabilities table; a write is one statement, which may fail and then changes nothing. */
  class CapabilityStore {
    var rows: Registry

    constructor ()
      ensures rows == map[]
    {
      rows := map[];
    }

    method FindById(id: string) returns (found: bool)
      ensures found == Taken(rows, id)
    {
      var left := rows.Keys;
      while left != {}
        invariant left <= rows.Keys
        invariant forall k :: k in rows && k.id == id ==> k in left
        decreases left
      {
        var k :| k in left;
        if k.id == id {
          return true;
        }
        left := left - {k};
      }
      return false;
    }

    method InsertStrict(row: Record, faults: set<Fault>) returns (ok: bool)
      requires !Taken(rows, row.id)
      modifies this
      ensures ok == (StoreWrite !in faults)
      ensures rows == if ok then old(rows)[row.Key() := row] else old(rows)
    {
      ok := StoreWrite !in faults;
      if ok {
        rows := rows[row.Key() := row];
      }
    }

    method Update(k: Key, row: Record, now: string, faults: set<Fault>) returns (ok: bool)
      modifies this
      ensures ok == (StoreWrite !in faults)
      ensures rows == if ok then Applied(old(rows), Write.Overwrite(k, row), now) else old(rows)
    {
      ok := StoreWrite !in faults;
      if ok && k in rows {
        var merged := rows[k];
        rows := rows[k := merged.Overwritten(row, now)];
      }
    }

    method SetEnabled(k: Key, enabled: bool, now: string, faults: set<Fault>) returns (ok: bool)
      modifies this
      ensures ok == (StoreWrite !in faults)
      ensures rows == if ok then Applied(old(rows), Write.SetEnabled(k, enabled), now) else old(rows)
    {
      ok := StoreWrite !in faults;
      if ok && k in rows {
        rows := rows[k := rows[k].(enabled := enabled, updatedAt := now)];
      }
    }

    method Remove(k: Key, faults: set<Fault>) returns (ok: bool)
      modifies this
      ensures ok == (StoreWrite !in faults && k in old(rows))
      ensures rows == if ok then old(rows) - {k} else old(rows)
    {
      ok := StoreWrite !in faults && k in rows;
      if ok {
        rows := rows - {k};
      }
    }
  }

  function Moved(dirs: Tree, source: Path, target: Path): Tree
    requires source in dirs
  {
    (dirs - {source})[target := dirs[source]]
  }

  class CapabilityLifecycleService {
    const rules: Rules
    const store: CapabilityStore
    var dirs: Tree
    var uuid: nat
    ghost var validated: set<(Key, Content)>
    ghost var committed: map<Key, Request>
    ghost var succeeded: map<Key, Request>

    ghost function View(): System
      reads this, store
    {
      System(rules, store.rows, dirs, uuid, validated, committed, succeeded)
    }

    ghost predicate Valid()
      reads this, store
    {
      Inv(View())
    }

    constructor (rules: Rules)
      ensures View() == System(rules, map[], map[], 0, {}, map[], map[])
      ensures Valid() && fresh(store)
    {
      this.rules := rules;
      this.store := new CapabilityStore();
      dirs, uuid := map[], 0;
      validated, committed, succeeded := {}, map[], map[];
    }

    // ---- Directories ----

    /** Stage the source under a root of its own; a source that fails leaves nothing there. */
    method Stage(source: Option<Content>) returns (n: nat, ok: bool)
      modifies this`dirs, this`uuid
      ensures n == old(uuid) && uuid == n + 1 && ok == source.Some?
      ensures dirs == if ok then old(dirs)[Root(n) := ""][Staged(n) := source.value] else old(dirs)
    {
      n, ok := uuid, source.Some?;
      uuid := uuid + 1;
      if ok {
        dirs := dirs[Root(n) := ""][Staged(n) := source.value];
      }
    }

    method DropStageRoot(n: nat, faults: set<Fault>) returns (ok: bool)
      modifies this`dirs
      ensures ok == (DropStage !in faults) && dirs == WithoutStage(old(dirs), n, faults)
    {
      ok := DropStage !in faults;
      if ok {
        dirs := dirs - {Root(n), Staged(n)};
      }
    }

    /** Move the live directory out of the way, if there is one. */
    method BackUp(k: Key, backup: Path, faults: set<Fault>) returns (ok: bool, backedUp: bool)
      modifies this`dirs
      ensures ok == (Live(k) in old(dirs) ==> BackupRename !in faults)
      ensures backedUp == (ok && Live(k) in old(dirs))
      ensures dirs == if backedUp then Moved(old(dirs), Live(k), backup) else old(dirs)
    {
      ok, backedUp := true, false;
      if Live(k) in dirs {
        if BackupRename in faults {
          ok := false;
        } else {
          dirs := Moved(dirs, Live(k), backup);
          backedUp := true;
        }
      }
    }

    method Restore(k: Key, backup: Path)
      modifies this`dirs
      ensures dirs == if backup in old(dirs) then Moved(old(dirs), backup, Live(k)) else old(dirs)
    {
      if backup in dirs {
        dirs := Moved(dirs, backup, Live(k));
      }
    }

    // ---- Transactions ----

    method Commit(w: Write, now: string, faults: set<Fault>) returns (ok: bool)
      requires w.Insert? ==> !Taken(store.rows, w.row.id)
      requires w.Delete? ==> w.key in store.rows
      modifies store
      ensures ok == (StoreWrite !in faults)
      ensures store.rows == if ok then Applied(old(store.rows), w, now) else old(store.rows)
    {
      match w
      case Insert(row) => ok := store.InsertStrict(row, faults);
      case Overwrite(k, row) => ok := store.Update(k, row, now, faults);
      case SetEnabled(k, enabled) => ok := store.SetEnabled(k, enabled, now, faults);
      case Delete(k) => ok := store.Remove(k, faults);
    }

    /** A registry write with no directory to keep in step. */
    method OnlyWrite(w: Write, env: Env) returns (ok: bool)
      requires w.Insert? ==> !Taken(store.rows, w.row.id)
      requires !w.Delete?
      modifies store
      ensures Swap(store.rows, dirs, ok, ok) ==
              Written(old(store.rows), dirs, Applied(old(store.rows), w, env.now), env.faults)
    {
      ok := Commit(w, env.now, env.faults);
    }

    method ReplaceMaterialized(k: Key, n: nat, w: Write, env: Env) returns (ok: bool, committed: bool)
      requires Staged(n) in dirs && NoBackups(dirs)
      requires !w.Insert? && !w.Delete?
      modifies this`dirs, store
      ensures Swap(store.rows, dirs, ok, committed) ==
              Replaced(old(store.rows), old(dirs), k, n, Applied(old(store.rows), w, env.now), env.faults)
    {
      var backup, promoted := Backup(k, uuid), false;
      committed := false;
      var backedUp;
      ok, backedUp := BackUp(k, backup, env.faults);
      if ok {
        ok := Promote !in env.faults;
        if ok {
          dirs := Moved(dirs, Staged(n), Live(k));
          promoted := true;
        }
      }
      if ok {
        committed := Commit(w, env.now, env.faults);
        ok := committed;
      }
      if ok && backedUp {
        ok := DropBackup !in env.faults;
        if ok {
          dirs := dirs - {backup};
        }
      }
      if !ok {
        if promoted {
          dirs := dirs - {Live(k)};
        }
        if backedUp {
          Restore(k, backup);
        }
      }
    }

    /** Disabling, removing, and an update that disables: back up, write, delete the backup. */
    method Retire(k: Key, w: Write, undo: Option<Record>, env: Env) returns (ok: bool, committed: bool)
      requires NoBackups(dirs) && !w.Insert? && (w.Delete? ==> w.key in store.rows)
      modifies this`dirs, store
      ensures var after := Applied(old(store.rows), w, env.now);
        Swap(store.rows, dirs, ok, committed) ==
        Retired(old(store.rows), old(dirs), k, after,
                if undo.Some? then Some(Applied(after, Overwrite(k, undo.value), env.now)) else None, env.faults)
    {
      var backup := Backup(k, uuid);
      committed := false;
      var backedUp;
      ok, backedUp := BackUp(k, backup, env.faults);
      if ok {
        committed := Commit(w, env.now, env.faults);
        ok := committed;
      }
      if ok && backedUp {
        ok := DropBackup !in env.faults;
        if ok {
          dirs := dirs - {backup};
        }
      }
      if !ok {
        if committed && undo.Some? {
          var undone := store.Update(k, undo.value, env.now, {});
          committed := false;
        }
        if backedUp {
          Restore(k, backup);
        }
      }
    }

    // ---- Calls ----

    /** A new record: promote its directory if it is enabled, insert, and undo the promotion on failure. */
    method PromoteAndInsert(n: nat, created: Record, env: Env) returns (ok: bool)
      requires Staged(n) in dirs && !Taken(store.rows, created.id)
      modifies this`dirs, store
      ensures Swap(store.rows, dirs, ok, ok) == InsertSwap(old(store.rows), old(dirs), n, created, env)
    {
      var k, promoted := created.Key(), false;
      ok := true;
      if created.enabled {
        ok := Promote !in env.faults && Live(k) !in dirs;
        if ok {
          dirs := Moved(dirs, Staged(n), Live(k));
          promoted := true;
        }
      }
      if ok {
        ok := Commit(Insert(created), env.now, env.faults);
      }
      if !ok && promoted {
        dirs := dirs - {Live(k)};
      }
    }

    /** The finally block: drop the staging root, if the call made one, and note the history. */
    method Finish(stage: Option<nat>, faults: set<Fault>, swapped: bool,
                  ghost s: System, ghost req: Request, ghost kept: bool) returns (ok: bool)
      requires View() == s.(records := store.rows, dirs := dirs)
      modifies this`dirs, this`committed, this`succeeded
      ensures Outcome(View(), ok) == Settled(s, stage, req, Swap(store.rows, old(dirs), swapped, kept), faults)
    {
      hide WithoutStage;
      ok := swapped;
      if stage.Some? {
        var dropped := DropStageRoot(stage.value, faults);
        ok := ok && dropped;
      }
      ghost var k := req.Target();
      committed := if kept then committed[k := req] else committed;
      succeeded := if ok then succeeded[k := req] else succeeded;
    }

    method AddCapability(rec: Record, env: Env) returns (ok: bool)
      requires Valid()
      modifies this`dirs, this`uuid, this`validated, this`committed, this`succeeded, store
      ensures Outcome(View(), ok) == Step(old(View()), Add(rec), env)
      ensures Valid()
    {
      assert Created(rec, env.now).Key() == rec.Key() && Created(rec, env.now).id == rec.id;
      hide Inv, Taken, InsertSwap, Settled, Applied, Written, Created;
      ghost var s := View();
      StepKeeps(s, Add(rec), env);
      var k := rec.Key();
      var taken := store.FindById(rec.id);
      if !rules.identityOk(rec) || rules.builtin(k) || taken {
        return false;
      }
      var created := Created(rec, env.now);
      if !SourceBacked(rec.kind) {
        if !rules.mcpOk(created.config) {
          return false;
        }
        ok := OnlyWrite(Insert(created), env);
        ok := Finish(None, env.faults, ok, s, Add(rec), ok);
        return;
      }
      var n, staged := Stage(env.source);
      if !staged {
        return false;
      }
      ok := rules.passes(k, env.source.value);
      if ok {
        validated := validated + {(k, env.source.value)};
      }
      s := View();
      if ok {
        ok := PromoteAndInsert(n, created, env);
      }
      ok := Finish(Some(n), env.faults, ok, s, Add(rec), ok);
    }

    method SwapForUpdate(k: Key, n: nat, next: Record, env: Env) returns (ok: bool, committed: bool)
      requires k in store.rows && Staged(n) in dirs && NoBackups(dirs)
      modifies this`dirs, store
      ensures Swap(store.rows, dirs, ok, committed) == UpdateSwap(old(store.rows), old(dirs), k, n, next, env)
    {
      var existing := store.rows[k];
      if existing.enabled && !next.enabled {
        ok, committed := Retire(k, Overwrite(k, next), Some(existing), env);
      } else if next.enabled {
        ok, committed := ReplaceMaterialized(k, n, Overwrite(k, next), env);
      } else {
        ok := Commit(Overwrite(k, next), env.now, env.faults);
        committed := ok;
      }
    }

    method UpdateCapability(k: Key, patch: Patch, env: Env) returns (ok: bool)
      requires Valid()
      modifies this`dirs, this`uuid, this`validated, this`committed, this`succeeded, store
      ensures Outcome(View(), ok) == Step(old(View()), Update(k, patch), env)
      ensures Valid()
    {
      assert NoBackups(dirs);
      hide Inv, UpdateSwap, Settled, Applied, Written;
      ghost var s := View();
      ghost var req := Update(k, patch);
      StepKeeps(s, req, env);
      if k !in store.rows {
        return false;
      }
      var next := store.rows[k].Patched(patch);
      if !rules.identityOk(next) {
        return false;
      }
      if !SourceBacked(k.kind) {
        if !rules.mcpOk(next.config) {
          return false;
        }
        ok := OnlyWrite(Overwrite(k, next), env);
        ok := Finish(None, env.faults, ok, s, req, ok);
        return;
      }
      var n, staged := Stage(env.source);
      if !staged || !rules.passes(k, env.source.value) {
        return false;
      }
      validated := validated + {(k, env.source.value)};
      s := View();
      var stands;
      ok, stands := SwapForUpdate(k, n, next, env);
      ok := Finish(Some(n), env.faults, ok, s, req, stands);
    }

    method EnableCapability(k: Key, env: Env) returns (ok: bool)
      requires Valid()
      modifies this`dirs, this`uuid, this`validated, this`committed, this`succeeded, store
      ensures Outcome(View(), ok) == Step(old(View()), Enable(k), env)
      ensures Valid()
    {
      assert NoBackups(dirs);
      hide Inv, Replaced, Settled, Applied;
      ghost var s := View();
      StepKeeps(s, Enable(k), env);
      if k !in store.rows {
        return false;
      }
      var existing := store.rows[k];
      if !SourceBacked(k.kind) {
        if !rules.mcpOk(existing.config) {
          return false;
        }
        ok := true;
        if !existing.enabled {
          ok := Commit(SetEnabled(k, true), env.now, env.faults);
        }
        ok := Finish(None, env.faults, ok, s, Enable(k), ok);
        return;
      }
      var n, staged := Stage(env.source);
      if !staged {
        return false;
      }
      ok := rules.passes(k, env.source.value);
      if ok {
        validated := validated + {(k, env.source.value)};
      }
      s := View();
      var stands := ok;
      if !existing.enabled {
        if !ok {
          return;
        }
        ok, stands := ReplaceMaterialized(k, n, SetEnabled(k, true), env);
      }
      ok := Finish(Some(n), env.faults, ok, s, Enable(k), stands);
    }

    method DisableCapability(k: Key, env: Env) returns (ok: bool)
      requires Valid()
      modifies this`dirs, this`committed, this`succeeded, store
      ensures Outcome(View(), ok) == Step(old(View()), Disable(k), env)
      ensures Valid()
    {
      assert NoBackups(dirs);
      hide Inv, Retired, Settled, Applied;
      ghost var s := View();
      StepKeeps(s, Disable(k), env);
      if k !in store.rows {
        return false;
      }
      var stands;
      ok, stands := Retire(k, SetEnabled(k, false), None, env);
      ok := Finish(None, env.faults, ok, s, Disable(k), stands);
    }

    method RemoveCapability(k: Key, env: Env) returns (ok: bool)
      requires Valid()
      modifies this`dirs, this`committed, this`succeeded, store
      ensures Outcome(View(), ok) == Step(old(View()), Remove(k), env)
      ensures Valid()
    {
      assert NoBackups(dirs);
      hide Inv, Retired, Settled, Applied;
      ghost var s := View();
      StepKeeps(s, Remove(k), env);
      if rules.builtin(k) || k !in store.rows {
        return false;
      }
      var stands;
      ok, stands := Retire(k, Delete(k), None, env);
      ok := Finish(None, env.faults, ok, s, Remove(k), stands);
    }

    // ---- The loader ----

    /** Enabled records of one kind, less those whose directory is missing. */
    method LoadPromoted(kind: Kind) returns (loaded: set<Record>, failures: set<Key>)
      requires Valid() && SourceBacked(kind)
      ensures loaded == set k | k in store.rows && k.kind == kind && store.rows[k].enabled :: store.rows[k]
      ensures failures == {}
    {
      loaded, failures := {}, {};
      var left := store.rows.Keys;
      while left != {}
        invariant left <= store.rows.Keys
        invariant failures == {}
        invariant loaded == set k | k in store.rows && k !in left && k.kind == kind && store.rows[k].enabled
                                :: store.rows[k]
        decreases left
      {
        var k :| k in left;
        if k.kind == kind && store.rows[k].enabled {
          if Live(k) in dirs {
            loaded := loaded + {store.rows[k]};
          } else {
            failures := failures + {k};
          }
        }
        left := left - {k};
      }
    }
  }
}
