/** What holds of registry and directories after every lifecycle call, whatever failed in it. */
module CapabilityInvariant {
  import opened Basics
  import opened CapabilityState

  ghost predicate NoBackups(dirs: Tree) {
    forall p :: p in dirs ==> !p.Backup?
  }

  ghost predicate RegistrySound(records: Registry) {
    && (forall k :: k in records ==> records[k].Key() == k)
    && (forall k, l | k in records && l in records :: k.id == l.id ==> k == l)
  }

  /** Every enabled source-backed record has its directory, and every directory's
      content once passed validation for that very capability. */
  ghost predicate TreeSound(rules: Rules, records: Registry, dirs: Tree, uuid: nat, validated: set<(Key, Content)>) {
    && NoBackups(dirs)
    && (forall p :: p in dirs && (p.Staged? || p.Root?) ==> p.uuid < uuid)
    && (forall k :: Live(k) in dirs ==> SourceBacked(k.kind) && (k, dirs[Live(k)]) in validated)
    && (forall k :: k in records && records[k].enabled && SourceBacked(k.kind) ==> Live(k) in dirs)
    && (forall k, c :: (k, c) in validated ==> rules.passes(k, c))
  }

  /** What an agent installed runs only once somebody has enabled it. */
  ghost predicate AgentsAsk(records: Registry, committed: map<Key, Request>) {
    forall k :: k in records && records[k].installedBy == Agent && k.kind != Skill && records[k].enabled
                ==> k in committed && committed[k] == Enable(k)
  }

  ghost predicate Inv(s: System) {
    && RegistrySound(s.records)
    && TreeSound(s.rules, s.records, s.dirs, s.uuid, s.validated)
    && AgentsAsk(s.records, s.committed)
  }

  lemma EmptyInv(rules: Rules)
    ensures Inv(System(rules, map[], map[], 0, {}, map[], map[]))
  {
  }

  // ---- One key of the registry changes ----

  ghost predicate Elsewhere(records: Registry, after: Registry, k: Key) {
    forall l :: l != k ==> (l in after <==> l in records) && (l in records ==> after[l] == records[l])
  }

  lemma AppliedKeeps(records: Registry, w: Write, now: string)
    requires RegistrySound(records) && (w.Insert? ==> !Taken(records, w.row.id))
    requires w.Overwrite? ==> w.row.Key() == w.key
    ensures RegistrySound(Applied(records, w, now))
    ensures Elsewhere(records, Applied(records, w, now), if w.Insert? then w.row.Key() else w.key)
  {
  }

  lemma AsksKept(records: Registry, committed: map<Key, Request>, after: Registry, later: map<Key, Request>, k: Key)
    requires AgentsAsk(records, committed) && Elsewhere(records, after, k)
    requires forall l :: l != k && l in committed ==> l in later && later[l] == committed[l]
    requires k in after && after[k].installedBy == Agent && k.kind != Skill && after[k].enabled
             ==> k in later && later[k] == Enable(k)
    ensures AgentsAsk(after, later)
  {
  }

  // ---- The tree, one transaction at a time ----

  lemma StagedTree(s: System, c: Content)
    requires TreeSound(s.rules, s.records, s.dirs, s.uuid, s.validated)
    ensures var u := WithStage(s, c);
      && TreeSound(s.rules, s.records, u.dirs, u.uuid, s.validated)
      && Staged(s.uuid) in u.dirs && u.dirs[Staged(s.uuid)] == c
      && (forall k :: Live(k) in u.dirs <==> Live(k) in s.dirs)
  {
  }

  lemma PassedTree(rules: Rules, records: Registry, dirs: Tree, uuid: nat, validated: set<(Key, Content)>,
                   k: Key, c: Content)
    requires TreeSound(rules, records, dirs, uuid, validated) && rules.passes(k, c)
    ensures TreeSound(rules, records, dirs, uuid, validated + {(k, c)})
  {
  }

  lemma UnstagedTree(rules: Rules, records: Registry, dirs: Tree, uuid: nat, validated: set<(Key, Content)>,
                     n: nat, faults: set<Fault>)
    requires TreeSound(rules, records, dirs, uuid, validated)
    ensures TreeSound(rules, records, WithoutStage(dirs, n, faults), uuid, validated)
  {
  }

  /** A directory may be promoted for any record, and stay unless the record needs it. */
  lemma ChangedTree(rules: Rules, records: Registry, dirs: Tree, uuid: nat, validated: set<(Key, Content)>,
                    k: Key, after: Registry, dirsAfter: Tree)
    requires TreeSound(rules, records, dirs, uuid, validated) && Elsewhere(records, after, k)
    requires forall p :: p != Live(k) && p in dirsAfter ==> p in dirs && dirsAfter[p] == dirs[p]
    requires forall l :: l != k && Live(l) in dirs ==> Live(l) in dirsAfter
    requires Live(k) in dirsAfter ==> SourceBacked(k.kind) && (k, dirsAfter[Live(k)]) in validated
    requires k in after && after[k].enabled && SourceBacked(k.kind) ==> Live(k) in dirsAfter
    ensures TreeSound(rules, after, dirsAfter, uuid, validated)
  {
  }

  lemma ReplacedTree(s: System, k: Key, n: nat, after: Registry, faults: set<Fault>)
    requires TreeSound(s.rules, s.records, s.dirs, s.uuid, s.validated) && Elsewhere(s.records, after, k)
    requires SourceBacked(k.kind) && Staged(n) in s.dirs && (k, s.dirs[Staged(n)]) in s.validated
    ensures var w := Replaced(s.records, s.dirs, k, n, after, faults);
      TreeSound(s.rules, w.records, w.dirs, s.uuid, s.validated)
  {
    var w := Replaced(s.records, s.dirs, k, n, after, faults);
    ChangedTree(s.rules, s.records, s.dirs, s.uuid, s.validated, k, w.records, w.dirs);
  }

  lemma RetiredTree(s: System, k: Key, after: Registry, compensated: Option<Registry>, faults: set<Fault>)
    requires TreeSound(s.rules, s.records, s.dirs, s.uuid, s.validated) && Elsewhere(s.records, after, k)
    requires k in after ==> !after[k].enabled
    requires compensated.Some? ==> Elsewhere(s.records, compensated.value, k)
    ensures var w := Retired(s.records, s.dirs, k, after, compensated, faults);
      TreeSound(s.rules, w.records, w.dirs, s.uuid, s.validated)
  {
    var w := Retired(s.records, s.dirs, k, after, compensated, faults);
    ChangedTree(s.rules, s.records, s.dirs, s.uuid, s.validated, k, w.records, w.dirs);
  }

  lemma PlacedTree(s: System, k: Key, n: nat, after: Registry, faults: set<Fault>)
    requires TreeSound(s.rules, s.records, s.dirs, s.uuid, s.validated) && Elsewhere(s.records, after, k)
    requires SourceBacked(k.kind) && Staged(n) in s.dirs && (k, s.dirs[Staged(n)]) in s.validated
    ensures var w := Placed(s.records, s.dirs, k, n, after, faults);
      TreeSound(s.rules, w.records, w.dirs, s.uuid, s.validated)
  {
    var w := Placed(s.records, s.dirs, k, n, after, faults);
    ChangedTree(s.rules, s.records, s.dirs, s.uuid, s.validated, k, w.records, w.dirs);
  }

  lemma WrittenTree(s: System, k: Key, after: Registry, faults: set<Fault>)
    requires TreeSound(s.rules, s.records, s.dirs, s.uuid, s.validated) && Elsewhere(s.records, after, k)
    requires k in after && after[k].enabled && SourceBacked(k.kind) ==> Live(k) in s.dirs
    ensures var w := Written(s.records, s.dirs, after, faults);
      TreeSound(s.rules, w.records, w.dirs, s.uuid, s.validated)
  {
    var w := Written(s.records, s.dirs, after, faults);
    ChangedTree(s.rules, s.records, s.dirs, s.uuid, s.validated, k, w.records, w.dirs);
  }

  /** Settling a swap that is sound in each part. */
  lemma SettledInv(s: System, stage: Option<nat>, req: Request, w: Swap, faults: set<Fault>)
    requires RegistrySound(w.records) && Elsewhere(s.records, w.records, req.Target())
    requires TreeSound(s.rules, w.records, w.dirs, s.uuid, s.validated)
    requires AgentsAsk(s.records, s.committed)
    requires var k := req.Target();
      k in w.records && w.records[k].installedBy == Agent && k.kind != Skill && w.records[k].enabled ==>
        if w.committed then req == Enable(k)
        else k in s.records && s.records[k].installedBy == Agent && s.records[k].enabled
    ensures Inv(Settled(s, stage, req, w, faults).sys)
  {
    hide RegistrySound, TreeSound;
    var u := Settled(s, stage, req, w, faults).sys;
    AsksKept(s.records, s.committed, u.records, u.committed, req.Target());
    if stage.Some? {
      UnstagedTree(s.rules, w.records, w.dirs, s.uuid, s.validated, stage.value, faults);
    }
  }

  // ---- The calls ----

  lemma StepKeeps(s: System, req: Request, env: Env)
    requires Inv(s)
    ensures Inv(Step(s, req, env).sys)
  {
    hide Inv;
    match req
    case Add(_) => AddKeeps(s, req, env);
    case Update(_, _) => UpdateKeeps(s, req, env);
    case Enable(_) => EnableKeeps(s, req, env);
    case Disable(_) => DisableKeeps(s, req, env);
    case Remove(_) => RemoveKeeps(s, req, env);
  }

  lemma SameInv(s: System)
    requires Inv(s)
    ensures Inv(s.(uuid := s.uuid + 1))
    ensures forall k :: Elsewhere(s.records, s.records, k)
  {
  }

  lemma StagedInv(s: System, k: Key, c: Content)
    requires Inv(s)
    ensures var u := WithStage(s, c);
      Inv(u) && Staged(s.uuid) in u.dirs && u.dirs[Staged(s.uuid)] == c && u.records == s.records
      && (forall k :: Live(k) in u.dirs <==> Live(k) in s.dirs)
      && (s.rules.passes(k, c) ==> Inv(Passed(u, k, c)) && (k, c) in Passed(u, k, c).validated)
  {
    hide RegistrySound, TreeSound, AgentsAsk;
    StagedTree(s, c);
    if s.rules.passes(k, c) {
      var u := WithStage(s, c);
      PassedTree(u.rules, u.records, u.dirs, u.uuid, u.validated, k, c);
    }
  }

  lemma AddKeeps(s: System, req: Request, env: Env)
    requires Inv(s) && req.Add?
    ensures Inv(AddStep(s, req, env).sys)
  {
    hide RegistrySound, TreeSound, AgentsAsk, Elsewhere, InsertSwap, Written, Settled, WithStage;
    var k := req.rec.Key();
    SameInv(s);
    if s.rules.identityOk(req.rec) && !s.rules.builtin(k) && !Taken(s.records, k.id) {
      var rec := Created(req.rec, env.now);
      if !SourceBacked(k.kind) {
        McpAdded(s, req, rec, env);
      } else if env.source.Some? {
        var c := env.source.value;
        StagedInv(s, k, c);
        AddSettles(s, req, rec, c, env);
      }
    }
  }

  lemma McpAdded(s: System, req: Request, rec: Record, env: Env)
    requires Inv(s) && req.Add? && rec == Created(req.rec, env.now) && !SourceBacked(rec.kind)
    requires !Taken(s.records, rec.id)
    ensures var w := Written(s.records, s.dirs, Applied(s.records, Insert(rec), env.now), env.faults);
      Inv(Settled(s, None, req, w, env.faults).sys)
  {
    hide TreeSound, AgentsAsk, Settled, RegistrySound;
    SameInv(s);
    AppliedKeeps(s.records, Insert(rec), env.now);
    var after := Applied(s.records, Insert(rec), env.now);
    WrittenTree(s, rec.Key(), after, env.faults);
    SettledInv(s, None, req, Written(s.records, s.dirs, after, env.faults), env.faults);
  }

  lemma AddSettles(s: System, req: Request, rec: Record, c: Content, env: Env)
    requires Inv(s) && req.Add? && rec == Created(req.rec, env.now) && SourceBacked(rec.kind)
    requires !Taken(s.records, rec.id)
    ensures var k := rec.Key(); var u := WithStage(s, c);
      && Staged(s.uuid) in u.dirs
      && Inv(Settled(u, Some(s.uuid), req, Swap(s.records, u.dirs, false, false), env.faults).sys)
      && (s.rules.passes(k, c) ==>
            Inv(Settled(Passed(u, k, c), Some(s.uuid), req, InsertSwap(s.records, u.dirs, s.uuid, rec, env),
                        env.faults).sys))
  {
    hide TreeSound, AgentsAsk, Settled, WithStage, RegistrySound, InsertSwap;
    var k := rec.Key();
    var u := WithStage(s, c);
    SameInv(s);
    StagedInv(s, k, c);
    SettledInv(u, Some(s.uuid), req, Swap(s.records, u.dirs, false, false), env.faults);
    if s.rules.passes(k, c) {
      AddPassedSettles(s, req, rec, c, env);
    }
  }

  lemma AddPassedSettles(s: System, req: Request, rec: Record, c: Content, env: Env)
    requires Inv(s) && req.Add? && rec == Created(req.rec, env.now) && SourceBacked(rec.kind)
    requires !Taken(s.records, rec.id) && s.rules.passes(rec.Key(), c)
    ensures var k := rec.Key(); var u := WithStage(s, c);
      && Staged(s.uuid) in u.dirs
      && Inv(Settled(Passed(u, k, c), Some(s.uuid), req, InsertSwap(s.records, u.dirs, s.uuid, rec, env),
                     env.faults).sys)
  {
    hide TreeSound, AgentsAsk, Settled, WithStage, RegistrySound, Elsewhere, InsertSwap, Taken;
    var v := Passed(WithStage(s, c), rec.Key(), c);
    StagedInv(s, rec.Key(), c);
    InsertSwapRecords(s.records, v.dirs, s.uuid, req.rec, rec, env);
    InsertSwapTree(v, s.uuid, rec, env);
    SettledInv(v, Some(s.uuid), req, InsertSwap(s.records, v.dirs, s.uuid, rec, env), env.faults);
  }

  lemma InsertSwapRecords(records: Registry, dirs: Tree, n: nat, asked: Record, rec: Record, env: Env)
    requires RegistrySound(records) && !Taken(records, rec.id) && rec == Created(asked, env.now) && Staged(n) in dirs
    ensures var w, k := InsertSwap(records, dirs, n, rec, env), rec.Key();
      && RegistrySound(w.records) && Elsewhere(records, w.records, k)
      && !(k in w.records && w.records[k].installedBy == Agent && k.kind != Skill && w.records[k].enabled)
  {
    assert rec.Key() !in records;
    AppliedKeeps(records, Insert(rec), env.now);
    hide RegistrySound;
  }

  lemma InsertSwapTree(v: System, n: nat, rec: Record, env: Env)
    requires TreeSound(v.rules, v.records, v.dirs, v.uuid, v.validated) && RegistrySound(v.records)
    requires !Taken(v.records, rec.id) && SourceBacked(rec.kind)
    requires Staged(n) in v.dirs && (rec.Key(), v.dirs[Staged(n)]) in v.validated
    ensures var w := InsertSwap(v.records, v.dirs, n, rec, env);
      TreeSound(v.rules, w.records, w.dirs, v.uuid, v.validated)
  {
    hide TreeSound, RegistrySound, Placed, Written;
    var after := Applied(v.records, Insert(rec), env.now);
    AppliedKeeps(v.records, Insert(rec), env.now);
    if rec.enabled {
      PlacedTree(v, rec.Key(), n, after, env.faults);
    } else {
      WrittenTree(v, rec.Key(), after, env.faults);
    }
  }

  lemma UpdateKeeps(s: System, req: Request, env: Env)
    requires Inv(s) && req.Update?
    ensures Inv(UpdateStep(s, req, env).sys)
  {
    hide TreeSound, AgentsAsk, Elsewhere, Retired, Replaced, Written, Settled, WithStage;
    var k := req.key;
    SameInv(s);
    if k in s.records {
      KeyOf(s, k);
      var next := s.records[k].Patched(req.patch);
      var after := Applied(s.records, Overwrite(k, next), env.now);
      AppliedKeeps(s.records, Overwrite(k, next), env.now);
      if !SourceBacked(k.kind) {
        WrittenTree(s, k, after, env.faults);
        WrittenRecords(s.records, s.dirs, after, env.faults);
        SettledInv(s, None, req, Written(s.records, s.dirs, after, env.faults), env.faults);
      } else if env.source.Some? {
        StagedInv(s, k, env.source.value);
        if s.rules.passes(k, env.source.value) {
          UpdateSettles(s, req, env.source.value, env);
        }
      }
    }
  }

  lemma KeyOf(s: System, k: Key)
    requires Inv(s) && k in s.records
    ensures s.records[k].Key() == k
  {
  }

  lemma WrittenRecords(records: Registry, dirs: Tree, after: Registry, faults: set<Fault>)
    ensures var w := Written(records, dirs, after, faults);
      w.dirs == dirs && w.records == if w.committed then after else records
  {
  }

  lemma UpdateSwapRecords(records: Registry, dirs: Tree, k: Key, n: nat, next: Record, env: Env)
    requires RegistrySound(records) && k in records && next.Key() == k && Staged(n) in dirs
    ensures var w := UpdateSwap(records, dirs, k, n, next, env);
      && RegistrySound(w.records) && Elsewhere(records, w.records, k)
      && k in w.records && w.records[k].installedBy == records[k].installedBy
      && (w.records[k].enabled ==> if w.committed then next.enabled else records[k].enabled)
  {
    assert records[k].Key() == k;
    hide RegistrySound, Elsewhere, Applied, UpdateSwap;
    var after := Applied(records, Overwrite(k, next), env.now);
    var undone := Applied(after, Overwrite(k, records[k]), env.now);
    UpdateSwapWrites(records, dirs, k, n, next, env);
    AppliedKeeps(records, Overwrite(k, next), env.now);
    AppliedKeeps(after, Overwrite(k, records[k]), env.now);
    ElsewhereTrans(records, after, undone, k);
    SameRegistry(records);
    OverwriteKeeps(records, k, next, env.now);
    OverwriteKeeps(after, k, records[k], env.now);
  }

  lemma UpdateSwapWrites(records: Registry, dirs: Tree, k: Key, n: nat, next: Record, env: Env)
    requires k in records && Staged(n) in dirs
    ensures var w := UpdateSwap(records, dirs, k, n, next, env);
      var after := Applied(records, Overwrite(k, next), env.now);
      if w.committed then w.records == after
      else w.records == records || w.records == Applied(after, Overwrite(k, records[k]), env.now)
  {
    hide Applied;
  }

  lemma OverwriteKeeps(records: Registry, k: Key, row: Record, now: string)
    requires k in records
    ensures var after := Applied(records, Overwrite(k, row), now);
      k in after && after[k].enabled == row.enabled && after[k].installedBy == records[k].installedBy
  {
  }

  lemma SameRegistry(records: Registry)
    ensures forall k :: Elsewhere(records, records, k)
  {
  }

  lemma UpdateSwapTree(v: System, k: Key, n: nat, next: Record, env: Env)
    requires Inv(v) && k in v.records && next.Key() == k && SourceBacked(k.kind)
    requires Staged(n) in v.dirs && (k, v.dirs[Staged(n)]) in v.validated
    ensures var w := UpdateSwap(v.records, v.dirs, k, n, next, env);
      TreeSound(v.rules, w.records, w.dirs, v.uuid, v.validated)
  {
    assert v.records[k].Key() == k;
    hide TreeSound, AgentsAsk, RegistrySound, Elsewhere, Retired, Replaced, Written;
    var after := Applied(v.records, Overwrite(k, next), env.now);
    AppliedKeeps(v.records, Overwrite(k, next), env.now);
    if v.records[k].enabled && !next.enabled {
      AppliedKeeps(after, Overwrite(k, v.records[k]), env.now);
      var undone := Applied(after, Overwrite(k, v.records[k]), env.now);
      ElsewhereTrans(v.records, after, undone, k);
      RetiredTree(v, k, after, Some(undone), env.faults);
    } else if next.enabled {
      ReplacedTree(v, k, n, after, env.faults);
    } else {
      WrittenTree(v, k, after, env.faults);
    }
  }

  lemma ElsewhereTrans(a: Registry, b: Registry, c: Registry, k: Key)
    requires Elsewhere(a, b, k) && Elsewhere(b, c, k)
    ensures Elsewhere(a, c, k)
  {
  }

  lemma UpdateSettles(s: System, req: Request, c: Content, env: Env)
    requires Inv(s) && req.Update? && req.key in s.records && SourceBacked(req.key.kind) && s.rules.passes(req.key, c)
    ensures Inv(UpdateStep(s, req, env.(source := Some(c))).sys)
  {
    if s.rules.identityOk(s.records[req.key].Patched(req.patch)) {
      var w := UpdateSwap(s.records, WithStage(s, c).dirs, req.key, s.uuid, s.records[req.key].Patched(req.patch),
                          env.(source := Some(c)));
      UpdateSwapSettles(s, req, c, env, w);
      hide Inv, WithStage, UpdateSwap, Settled;
    }
  }

  lemma UpdateSwapSettles(s: System, req: Request, c: Content, env: Env, w: Swap)
    requires Inv(s) && req.Update? && req.key in s.records && SourceBacked(req.key.kind) && s.rules.passes(req.key, c)
    requires w == UpdateSwap(s.records, WithStage(s, c).dirs, req.key, s.uuid, s.records[req.key].Patched(req.patch),
                             env.(source := Some(c)))
    ensures Inv(Settled(Passed(WithStage(s, c), req.key, c), Some(s.uuid), req, w, env.faults).sys)
  {
    var k := req.key;
    assert s.records[k].Key() == k;
    hide TreeSound, AgentsAsk, RegistrySound, Elsewhere, Settled, WithStage, UpdateSwap;
    var next := s.records[k].Patched(req.patch);
    var v := Passed(WithStage(s, c), k, c);
    var later := env.(source := Some(c));
    StagedInv(s, k, c);
    UpdateSwapRecords(s.records, v.dirs, k, s.uuid, next, later);
    UpdateSwapTree(v, k, s.uuid, next, later);
    SettledInv(v, Some(s.uuid), req, w, env.faults);
  }

  lemma EnableKeeps(s: System, req: Request, env: Env)
    requires Inv(s) && req.Enable?
    ensures Inv(EnableStep(s, req, env).sys)
  {
    hide TreeSound, AgentsAsk, Settled, WithStage, Replaced;
    var k := req.key;
    SameInv(s);
    if k in s.records {
      var after := Applied(s.records, SetEnabled(k, true), env.now);
      AppliedKeeps(s.records, SetEnabled(k, true), env.now);
      if !SourceBacked(k.kind) {
        WrittenTree(s, k, after, env.faults);
        SettledInv(s, None, req, Written(s.records, s.dirs, after, env.faults), env.faults);
        SettledInv(s, None, req, Swap(s.records, s.dirs, true, true), env.faults);
      } else if env.source.Some? {
        StagedInv(s, k, env.source.value);
        EnableSettles(s, req, env.source.value, env);
      }
    }
  }

  lemma EnableSettles(s: System, req: Request, c: Content, env: Env)
    requires Inv(s) && req.Enable? && req.key in s.records && SourceBacked(req.key.kind)
    ensures Inv(EnableStep(s, req, env.(source := Some(c))).sys)
  {
    hide TreeSound, AgentsAsk, Settled, WithStage, RegistrySound, Elsewhere;
    var k := req.key;
    var u := WithStage(s, c);
    var after := Applied(s.records, SetEnabled(k, true), env.now);
    SameInv(s);
    StagedInv(s, k, c);
    AppliedKeeps(s.records, SetEnabled(k, true), env.now);
    if s.records[k].enabled {
      SettledInv(u, Some(s.uuid), req, Swap(s.records, u.dirs, false, false), env.faults);
      if s.rules.passes(k, c) {
        SettledInv(Passed(u, k, c), Some(s.uuid), req, Swap(s.records, u.dirs, true, true), env.faults);
      }
    } else if s.rules.passes(k, c) {
      ReplacedTree(Passed(u, k, c), k, s.uuid, after, env.faults);
      SettledInv(Passed(u, k, c), Some(s.uuid), req,
                 Replaced(s.records, u.dirs, k, s.uuid, after, env.faults), env.faults);
    }
  }

  lemma DisableKeeps(s: System, req: Request, env: Env)
    requires Inv(s) && req.Disable?
    ensures Inv(DisableStep(s, req, env).sys)
  {
    hide TreeSound, Settled, AgentsAsk;
    var k := req.key;
    SameInv(s);
    if k in s.records {
      AppliedKeeps(s.records, SetEnabled(k, false), env.now);
      var after := Applied(s.records, SetEnabled(k, false), env.now);
      RetiredTree(s, k, after, None, env.faults);
      SettledInv(s, None, req, Retired(s.records, s.dirs, k, after, None, env.faults), env.faults);
    }
  }

  lemma RemoveKeeps(s: System, req: Request, env: Env)
    requires Inv(s) && req.Remove?
    ensures Inv(RemoveStep(s, req, env).sys)
  {
    hide TreeSound, Settled, AgentsAsk;
    var k := req.key;
    SameInv(s);
    AppliedKeeps(s.records, Delete(k), env.now);
    var after := Applied(s.records, Delete(k), env.now);
    RetiredTree(s, k, after, None, env.faults);
    SettledInv(s, None, req, Retired(s.records, s.dirs, k, after, None, env.faults), env.faults);
  }
}
