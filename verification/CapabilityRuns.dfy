/** Whole sequences of lifecycle calls, and what a single failed deletion can do to them. */
module CapabilityRuns {
  import opened Basics
  import opened CapabilityState
  import opened CapabilityInvariant
  import opened CapabilityTheorems

  datatype Call = Call(req: Request, env: Env)

  function Fresh(rules: Rules): System { System(rules, map[], map[], 0, {}, map[], map[]) }

  function After(s: System, calls: seq<Call>): System
    decreases |calls|
  {
    if calls == [] then s else After(Step(s, calls[0].req, calls[0].env).sys, calls[1..])
  }

  lemma {:induction false} AfterKeeps(s: System, calls: seq<Call>)
    requires Inv(s)
    ensures Inv(After(s, calls))
    decreases |calls|
  {
    if calls != [] {
      StepKeeps(s, calls[0].req, calls[0].env);
      AfterKeeps(Step(s, calls[0].req, calls[0].env).sys, calls[1..]);
    }
  }

  predicate NeverFails(calls: seq<Call>, fault: Fault) {
    forall i :: 0 <= i < |calls| ==> fault !in calls[i].env.faults
  }

  // ---- The loader finds what the registry promises ----

  /** After any calls with any failures, every enabled package has its directory. */
  lemma EnabledIsPromoted(rules: Rules, calls: seq<Call>, k: Key)
    ensures var s := After(Fresh(rules), calls);
      k in s.records && s.records[k].enabled && SourceBacked(k.kind) ==> Live(k) in s.dirs
  {
    EmptyInv(rules);
    AfterKeeps(Fresh(rules), calls);
  }

  lemma {:induction false} OrphansNeedAFailedDeletion(s: System, calls: seq<Call>, k: Key)
    requires Inv(s) && !Orphan(s.records, s.dirs, k) && NeverFails(calls, DropBackup)
    ensures var u := After(s, calls); !Orphan(u.records, u.dirs, k)
    decreases |calls|
  {
    if calls != [] {
      var u := Step(s, calls[0].req, calls[0].env).sys;
      StepKeeps(s, calls[0].req, calls[0].env);
      OrphanArises(s, calls[0].req, calls[0].env, k);
      hide Inv, Step;
      OrphansNeedAFailedDeletion(u, calls[1..], k);
    }
  }

  /** As long as no backup deletion fails, directories and enabled packages coincide. */
  lemma PromotedIffEnabled(rules: Rules, calls: seq<Call>, k: Key)
    requires NeverFails(calls, DropBackup)
    ensures var s := After(Fresh(rules), calls);
      Live(k) in s.dirs <==> k in s.records && s.records[k].enabled && SourceBacked(k.kind)
  {
    EmptyInv(rules);
    AfterKeeps(Fresh(rules), calls);
    OrphansNeedAFailedDeletion(Fresh(rules), calls, k);
    LiveIsPackage(After(Fresh(rules), calls), k);
    EnabledIsPromoted(rules, calls, k);
  }

  lemma LiveIsPackage(s: System, k: Key)
    requires Inv(s)
    ensures Live(k) in s.dirs ==>
      SourceBacked(k.kind) && (k, s.dirs[Live(k)]) in s.validated && s.rules.passes(k, s.dirs[Live(k)])
  {
  }

  // ---- Nothing unvalidated is ever live ----

  predicate Validates(call: Call, rules: Rules, k: Key, c: Content) {
    && call.req.Target() == k && !call.req.Disable? && !call.req.Remove?
    && call.env.source == Some(c) && rules.passes(k, c)
  }

  lemma ValidatedBy(s: System, call: Call, k: Key, c: Content)
    ensures var u := Step(s, call.req, call.env).sys;
      && u.rules == s.rules
      && ((k, c) in u.validated && (k, c) !in s.validated ==> Validates(call, s.rules, k, c))
  {
    hide Taken, Created, Applied, Written, InsertSwap, UpdateSwap, Replaced, Retired, Settled;
    SettledValidates(call.req, call.env.faults);
  }

  lemma SettledValidates(req: Request, faults: set<Fault>)
    ensures forall s, stage, w ::
      var u := Settled(s, stage, req, w, faults).sys; u.validated == s.validated && u.rules == s.rules
  {
    hide WithoutStage;
  }

  lemma {:induction false} ValidatedEarlier(s: System, calls: seq<Call>, k: Key, c: Content)
    requires (k, c) !in s.validated && (k, c) in After(s, calls).validated
    ensures exists i :: 0 <= i < |calls| && Validates(calls[i], s.rules, k, c)
    decreases |calls|
  {
    var u := Step(s, calls[0].req, calls[0].env).sys;
    ValidatedBy(s, calls[0], k, c);
    hide Step;
    if (k, c) !in u.validated {
      ValidatedEarlier(u, calls[1..], k, c);
      var i :| 0 <= i < |calls[1..]| && Validates(calls[1..][i], s.rules, k, c);
      assert calls[i + 1] == calls[1..][i];
    }
  }

  /** Whatever is live passed validation in an earlier add, update or enable of that very capability. */
  lemma LiveWasValidated(rules: Rules, calls: seq<Call>, k: Key)
    requires Live(k) in After(Fresh(rules), calls).dirs
    ensures exists i :: 0 <= i < |calls|
              && Validates(calls[i], rules, k, After(Fresh(rules), calls).dirs[Live(k)])
  {
    EmptyInv(rules);
    AfterKeeps(Fresh(rules), calls);
    LiveIsPackage(After(Fresh(rules), calls), k);
    ValidatedEarlier(Fresh(rules), calls, k, After(Fresh(rules), calls).dirs[Live(k)]);
  }

  // ---- Who enabled it ----

  /** Unless a deletion fails, a call changes the registry exactly if it reports success. */
  lemma CommitsIffSucceeds(s: System, req: Request, env: Env)
    requires s.committed == s.succeeded && DropBackup !in env.faults && DropStage !in env.faults
    ensures var u := Step(s, req, env).sys; u.committed == u.succeeded
  {
    hide Taken, Created, Applied, Placed;
    match req
    case Add(_) => AddCommits(s, req, env);
    case Update(_, _) => UpdateCommits(s, req, env);
    case Enable(_) => EnableCommits(s, req, env);
    case Disable(_) =>
    case Remove(_) =>
  }

  lemma SettledCommits(s: System, stage: Option<nat>, req: Request, w: Swap, faults: set<Fault>)
    requires s.committed == s.succeeded && DropStage !in faults && w.ok == w.committed
    ensures var u := Settled(s, stage, req, w, faults).sys; u.committed == u.succeeded
  {
  }

  lemma AddCommits(s: System, req: Request, env: Env)
    requires req.Add? && s.committed == s.succeeded && DropStage !in env.faults
    ensures var u := AddStep(s, req, env).sys; u.committed == u.succeeded
  {
    hide Settled, Taken, Applied, Created, WithoutStage;
    var rec := Created(req.rec, env.now);
    SettledCommits(s, None, req,
                   Written(s.records, s.dirs, Applied(s.records, Insert(rec), env.now), env.faults), env.faults);
    if env.source.Some? {
      var k, c := req.rec.Key(), env.source.value;
      var u := WithStage(s, c);
      SettledCommits(u, Some(s.uuid), req, Swap(s.records, u.dirs, false, false), env.faults);
      var w := InsertSwap(s.records, u.dirs, s.uuid, rec, env);
      assert w.ok == w.committed;
      SettledCommits(Passed(u, k, c), Some(s.uuid), req, w, env.faults);
    }
    hide WithStage, InsertSwap;
  }

  lemma UpdateCommits(s: System, req: Request, env: Env)
    requires req.Update? && s.committed == s.succeeded && DropBackup !in env.faults && DropStage !in env.faults
    ensures var u := UpdateStep(s, req, env).sys; u.committed == u.succeeded
  {
    hide Settled, Applied;
    var k := req.key;
    if k in s.records {
      var next := s.records[k].Patched(req.patch);
      SettledCommits(s, None, req,
                     Written(s.records, s.dirs, Applied(s.records, Overwrite(k, next), env.now), env.faults),
                     env.faults);
      if env.source.Some? {
        var u := WithStage(s, env.source.value);
        var w := UpdateSwap(s.records, u.dirs, k, s.uuid, next, env);
        assert w.ok == w.committed;
        SettledCommits(Passed(u, k, env.source.value), Some(s.uuid), req, w, env.faults);
      }
    }
  }

  lemma EnableCommits(s: System, req: Request, env: Env)
    requires req.Enable? && s.committed == s.succeeded && DropBackup !in env.faults && DropStage !in env.faults
    ensures var u := EnableStep(s, req, env).sys; u.committed == u.succeeded
  {
    var k := req.key;
    var after := Applied(s.records, SetEnabled(k, true), env.now);
    if k in s.records && SourceBacked(k.kind) && env.source.Some? {
      var c := env.source.value;
      var u := WithStage(s, c);
      var passes := s.rules.passes(k, c);
      SettledCommits(if passes then Passed(u, k, c) else u, Some(s.uuid), req,
                     Swap(s.records, u.dirs, passes, passes), env.faults);
      var w := Replaced(s.records, u.dirs, k, s.uuid, after, env.faults);
      assert w.ok == w.committed;
      SettledCommits(Passed(u, k, c), Some(s.uuid), req, w, env.faults);
    } else {
      SettledCommits(s, None, req, Written(s.records, s.dirs, after, env.faults), env.faults);
      SettledCommits(s, None, req, Swap(s.records, s.dirs, true, true), env.faults);
    }
    hide Settled, WithStage, Replaced, Applied, Written;
  }

  lemma {:induction false} HistoriesAgree(s: System, calls: seq<Call>)
    requires s.committed == s.succeeded && NeverFails(calls, DropBackup) && NeverFails(calls, DropStage)
    ensures After(s, calls).committed == After(s, calls).succeeded
    decreases |calls|
  {
    if calls != [] {
      CommitsIffSucceeds(s, calls[0].req, calls[0].env);
      hide Step;
      HistoriesAgree(Step(s, calls[0].req, calls[0].env).sys, calls[1..]);
    }
  }

  predicate AgentEnabled(s: System, k: Key) {
    k in s.records && s.records[k].installedBy == Agent && k.kind != Skill && s.records[k].enabled
  }

  /** Code an agent installed is enabled only by `enable`: the last registry write kept for
      it came from one, and unless a deletion failed that call also reported success. */
  lemma AgentCodeIsEnabledExplicitly(rules: Rules, calls: seq<Call>, k: Key)
    ensures var s := After(Fresh(rules), calls);
      AgentEnabled(s, k) ==>
        && k in s.committed && s.committed[k] == Enable(k)
        && (NeverFails(calls, DropBackup) && NeverFails(calls, DropStage) ==>
              k in s.succeeded && s.succeeded[k] == Enable(k))
  {
    EmptyInv(rules);
    AfterKeeps(Fresh(rules), calls);
    if NeverFails(calls, DropBackup) && NeverFails(calls, DropStage) {
      HistoriesAgree(Fresh(rules), calls);
    }
  }

  /** The exception: an enable that reports failure and still enables, in exactly these cases. */
  lemma EnabledDespiteFailure(s: System, k: Key, env: Env)
    requires Inv(s) && k in s.records && !s.records[k].enabled && SourceBacked(k.kind)
    ensures var o := EnableStep(s, Enable(k), env);
      (!o.ok && k in o.sys.records && o.sys.records[k].enabled) <==>
      && env.source.Some? && s.rules.passes(k, env.source.value)
      && Promote !in env.faults && StoreWrite !in env.faults
      && (Live(k) in s.dirs ==> BackupRename !in env.faults)
      && (DropStage in env.faults || (Live(k) in s.dirs && DropBackup in env.faults))
  {
    EveryCallExplained(s, Enable(k), env);
    hide Inv, EnableStep, LiveDirs;
  }

  // ---- What a failed deletion of the backup leaves behind ----

  /** A compensated update restores a row, its time stamp aside, exactly if the patch names no new setting. */
  lemma CompensationRestores(row: Record, patch: Patch, now: string)
    ensures var back := Compensated(row, patch, now);
      && back == row.(updatedAt := now, config := back.config)
      && (forall key :: key in row.config ==> key in back.config && back.config[key] == row.config[key])
      && (forall key :: key in back.config && key !in row.config ==>
            key in patch.config && back.config[key] == patch.config[key])
      && (back.(updatedAt := row.updatedAt) == row <==> patch.config.Keys <= row.config.Keys)
  {
    var back := Compensated(row, patch, now);
    assert forall key :: key in patch.config ==> key in back.config;
    if patch.config.Keys <= row.config.Keys {
      assert back.config == row.config;
    } else {
      var key :| key in patch.config.Keys && key !in row.config.Keys;
      assert key in back.config;
    }
  }

  /** The update reaches its transaction, and nothing but the deletion of the backup fails. */
  predicate OnlyBackupDeletionFails(s: System, k: Key, patch: Patch, env: Env) {
    && k in s.records && s.records[k].enabled && SourceBacked(k.kind)
    && s.rules.identityOk(s.records[k].Patched(patch))
    && env.source.Some? && s.rules.passes(k, env.source.value) && env.faults == {DropBackup}
  }

  /** An update that disables puts row and directory back; one of a skill keeps the new
      row over the old directory. */
  lemma BackupDeletionFails(s: System, k: Key, patch: Patch, env: Env)
    requires Inv(s) && OnlyBackupDeletionFails(s, k, patch, env)
    ensures var o := UpdateStep(s, Update(k, patch), env); var row := s.records[k];
      && !o.ok && Meaning(o.sys).live == Meaning(s).live
      && o.sys.records == s.records[k :=
           if k.kind == Skill then row.Patched(patch).(updatedAt := env.now) else Compensated(row, patch, env.now)]
  {
    KeyOf(s, k);
    assert Live(k) in s.dirs;
    EveryCallExplained(s, Update(k, patch), env);
    hide Inv, LiveDirs, UpdateStep, Compensated;
  }

  // ---- Staging roots ----

  /** The call gets as far as staging something. */
  predicate Stages(s: System, req: Request, env: Env) {
    var k := req.Target();
    && SourceBacked(k.kind) && env.source.Some?
    && match req
       case Add(rec) => s.rules.identityOk(rec) && !s.rules.builtin(k) && !Taken(s.records, k.id)
       case Update(_, patch) => k in s.records && s.rules.identityOk(s.records[k].Patched(patch))
       case Enable(_) => k in s.records
       case Disable(_) => false
       case Remove(_) => false
  }

  /** A staging root stays behind if its deletion fails, and whenever an update, or an
      enable of a disabled record, stages content that does not pass validation. */
  lemma StagingRootStaysIff(s: System, req: Request, env: Env)
    requires Inv(s)
    ensures Root(s.uuid) in Step(s, req, env).sys.dirs <==>
      && Stages(s, req, env)
      && (if !s.rules.passes(req.Target(), env.source.value)
             && (req.Update? || (req.Enable? && !s.records[req.key].enabled))
          then true else DropStage in env.faults)
  {
    assert Root(s.uuid) !in s.dirs;
    hide Inv, Applied, Created, Taken;
    match req
    case Add(_) => AddLeavesRoot(s, req, env);
    case Update(_, _) => UpdateLeavesRoot(s, req, env);
    case Enable(_) => EnableLeavesRoot(s, req, env);
    case Disable(_) =>
    case Remove(_) =>
  }

  /** Only dropping the stage takes a root away; no swap touches one. */
  lemma SettledRoot(s: System, stage: Option<nat>, req: Request, w: Swap, faults: set<Fault>, n: nat)
    ensures Root(n) in Settled(s, stage, req, w, faults).sys.dirs <==>
            Root(n) in w.dirs && !(stage == Some(n) && DropStage !in faults)
  {
  }

  lemma SwapsKeepRoots(records: Registry, dirs: Tree, k: Key, n: nat, rec: Record, env: Env, r: nat)
    requires Staged(n) in dirs
    ensures Root(r) in InsertSwap(records, dirs, n, rec, env).dirs <==> Root(r) in dirs
    ensures k in records ==> (Root(r) in UpdateSwap(records, dirs, k, n, rec, env).dirs <==> Root(r) in dirs)
    ensures forall after :: Root(r) in Replaced(records, dirs, k, n, after, env.faults).dirs <==> Root(r) in dirs
  {
    hide Applied;
  }

  lemma AddLeavesRoot(s: System, req: Request, env: Env)
    requires req.Add? && Root(s.uuid) !in s.dirs
    ensures Root(s.uuid) in AddStep(s, req, env).sys.dirs <==> Stages(s, req, env) && DropStage in env.faults
  {
    hide Taken, Created, Applied;
    var rec := Created(req.rec, env.now);
    SettledRoot(s, None, req, Written(s.records, s.dirs, Applied(s.records, Insert(rec), env.now), env.faults),
                env.faults, s.uuid);
    if env.source.Some? {
      var k, c := req.rec.Key(), env.source.value;
      var u := WithStage(s, c);
      SwapsKeepRoots(s.records, u.dirs, k, s.uuid, rec, env, s.uuid);
      SettledRoot(u, Some(s.uuid), req, Swap(s.records, u.dirs, false, false), env.faults, s.uuid);
      SettledRoot(Passed(u, k, c), Some(s.uuid), req, InsertSwap(s.records, u.dirs, s.uuid, rec, env),
                  env.faults, s.uuid);
    }
    hide Settled, InsertSwap;
  }

  lemma UpdateLeavesRoot(s: System, req: Request, env: Env)
    requires req.Update? && Root(s.uuid) !in s.dirs
    ensures Root(s.uuid) in UpdateStep(s, req, env).sys.dirs <==>
      Stages(s, req, env) && (s.rules.passes(req.key, env.source.value) ==> DropStage in env.faults)
  {
    hide Applied;
    var k := req.key;
    if k in s.records {
      var next := s.records[k].Patched(req.patch);
      SettledRoot(s, None, req, Written(s.records, s.dirs, Applied(s.records, Overwrite(k, next), env.now), env.faults),
                  env.faults, s.uuid);
      if env.source.Some? {
        var u := WithStage(s, env.source.value);
        SwapsKeepRoots(s.records, u.dirs, k, s.uuid, next, env, s.uuid);
        SettledRoot(Passed(u, k, env.source.value), Some(s.uuid), req,
                    UpdateSwap(s.records, u.dirs, k, s.uuid, next, env), env.faults, s.uuid);
      }
    }
    hide Settled, UpdateSwap;
  }

  lemma EnableLeavesRoot(s: System, req: Request, env: Env)
    requires req.Enable? && Root(s.uuid) !in s.dirs
    ensures Root(s.uuid) in EnableStep(s, req, env).sys.dirs <==>
      && Stages(s, req, env)
      && (s.records[req.key].enabled || s.rules.passes(req.key, env.source.value) ==> DropStage in env.faults)
  {
    hide Applied;
    var k := req.key;
    var after := Applied(s.records, SetEnabled(k, true), env.now);
    SettledRoot(s, None, req, Written(s.records, s.dirs, after, env.faults), env.faults, s.uuid);
    SettledRoot(s, None, req, Swap(s.records, s.dirs, true, true), env.faults, s.uuid);
    if env.source.Some? && k in s.records {
      var c := env.source.value;
      var u := WithStage(s, c);
      SwapsKeepRoots(s.records, u.dirs, k, s.uuid, s.records[k], env, s.uuid);
      SettledRoot(u, Some(s.uuid), req, Swap(s.records, u.dirs, false, false), env.faults, s.uuid);
      SettledRoot(Passed(u, k, c), Some(s.uuid), req, Swap(s.records, u.dirs, true, true), env.faults, s.uuid);
      SettledRoot(Passed(u, k, c), Some(s.uuid), req, Replaced(s.records, u.dirs, k, s.uuid, after, env.faults),
                  env.faults, s.uuid);
    }
    hide Settled, Replaced;
  }

  // ---- The failing cases, from an empty registry ----

  const TOOL: Record :=
    Record(Tool, "t", "Tool", "", "npm", "t@1", None, false, map[], "", "", Cli)

  const ALL_PASS: Rules :=
    Rules((k: Key) => false, (r: Record) => true, (c: Config) => true, (k: Key, c: Content) => true)

  const NO_CHANGE: Patch := Patch(Keep, Keep, Keep, Keep, Keep, map[])

  function Calling(req: Request, faults: set<Fault>): Call { Call(req, Env("now", Some("code"), faults)) }

  /** A disable that cannot delete its backup reports failure and leaves the directory behind. */
  lemma FailedDisableOrphans()
    ensures var k := TOOL.Key();
      var calls := [Calling(Add(TOOL.(enabled := true)), {}), Calling(Disable(k), {DropBackup})];
      var u := After(Fresh(ALL_PASS), calls);
      Orphan(u.records, u.dirs, k) && k in u.records && !u.records[k].enabled && k in u.succeeded && u.succeeded[k].Add?
  {
    var k := TOOL.Key();
    var add, off := Calling(Add(TOOL.(enabled := true)), {}), Calling(Disable(k), {DropBackup});
    var s := Step(Fresh(ALL_PASS), add.req, add.env).sys;
    AfterTwo(Fresh(ALL_PASS), add, off);
  }

  lemma AfterTwo(s: System, a: Call, b: Call)
    ensures After(s, [a, b]) == Step(Step(s, a.req, a.env).sys, b.req, b.env).sys
  {
    hide Step;
    var u := Step(s, a.req, a.env).sys;
    assert [a, b][1..] == [b] && [b][1..] == [];
    assert After(u, [b]) == After(Step(u, b.req, b.env).sys, []);
  }

  /** An enable that cannot delete its staging root reports failure, and has enabled the tool. */
  lemma FailedEnableEnables()
    ensures var k := TOOL.Key();
      var u := After(Fresh(ALL_PASS), [Calling(Add(TOOL), {}), Calling(Enable(k), {DropStage})]);
      k in u.records && u.records[k].enabled && Live(k) in u.dirs && k in u.succeeded && u.succeeded[k].Add?
  {
    var k := TOOL.Key();
    AfterTwo(Fresh(ALL_PASS), Calling(Add(TOOL), {}), Calling(Enable(k), {DropStage}));
  }

  lemma SkillAdded(skill: Record)
    requires skill == TOOL.(kind := Skill, enabled := true)
    ensures var s := Step(Fresh(ALL_PASS), Add(skill), Calling(Add(skill), {}).env).sys; var k := skill.Key();
      && Inv(s) && s.rules == ALL_PASS && k in s.records && s.records[k] == Created(skill, "now")
      && Live(k) in s.dirs && s.dirs[Live(k)] == "code"
  {
    EmptyInv(ALL_PASS);
    StepKeeps(Fresh(ALL_PASS), Add(skill), Calling(Add(skill), {}).env);
    hide Inv;
  }

  /** An update of a skill that cannot delete its backup keeps the new row over the old directory. */
  lemma FailedUpdateKeepsRow()
    ensures var skill := TOOL.(kind := Skill, enabled := true); var k := skill.Key();
      var renamed := Update(k, NO_CHANGE.(name := Set("Renamed")));
      var u := After(Fresh(ALL_PASS),
                     [Calling(Add(skill), {}), Call(renamed, Env("later", Some("new code"), {DropBackup}))]);
      k in u.records && u.records[k].name == "Renamed" && Live(k) in u.dirs && u.dirs[Live(k)] == "code"
  {
    var skill := TOOL.(kind := Skill, enabled := true);
    var renamed := Update(skill.Key(), NO_CHANGE.(name := Set("Renamed")));
    var s := Step(Fresh(ALL_PASS), Add(skill), Calling(Add(skill), {}).env).sys;
    var later := Env("later", Some("new code"), {DropBackup});
    AfterTwo(Fresh(ALL_PASS), Calling(Add(skill), {}), Call(renamed, later));
    SkillAdded(skill);
    BackupDeletionFails(s, skill.Key(), renamed.patch, later);
    hide Step, UpdateStep, Inv;
    assert Meaning(Step(s, renamed, later).sys).live[skill.Key()] == "code";
  }
}
