/** What the lifecycle calls guarantee, and exactly where they do not. */
module CapabilityTheorems {
  import opened Basics
  import opened CapabilityState
  import opened CapabilityInvariant

  // ---- What staging, swapping and settling mean for the live directories ----

  lemma LiveAt(dirs: Tree, k: Key)
    ensures k in LiveDirs(dirs) <==> Live(k) in dirs
    ensures Live(k) in dirs ==> LiveDirs(dirs)[k] == dirs[Live(k)]
  {
  }

  lemma SameLive(dirs: Tree, later: Tree)
    requires forall k :: Live(k) in later <==> Live(k) in dirs
    requires forall k :: Live(k) in dirs ==> later[Live(k)] == dirs[Live(k)]
    ensures LiveDirs(later) == LiveDirs(dirs)
  {
    forall k ensures k in LiveDirs(later) <==> k in LiveDirs(dirs)
      ensures k in LiveDirs(dirs) ==> LiveDirs(later)[k] == LiveDirs(dirs)[k]
    {
      LiveAt(dirs, k);
      LiveAt(later, k);
    }
  }

  lemma LivePut(dirs: Tree, k: Key, c: Content)
    ensures LiveDirs(dirs[Live(k) := c]) == LiveDirs(dirs)[k := c]
  {
    hide LiveDirs;
    var put, want := LiveDirs(dirs[Live(k) := c]), LiveDirs(dirs)[k := c];
    forall l ensures l in put <==> l in want
      ensures l in want ==> put[l] == want[l]
    {
      LiveAt(dirs, l);
      LiveAt(dirs[Live(k) := c], l);
    }
  }

  lemma LiveDropped(dirs: Tree, k: Key)
    ensures LiveDirs(dirs - {Live(k)}) == LiveDirs(dirs) - {k}
  {
    hide LiveDirs;
    forall l ensures l in LiveDirs(dirs - {Live(k)}) <==> l in LiveDirs(dirs) - {k}
      ensures l in LiveDirs(dirs) - {k} ==> LiveDirs(dirs - {Live(k)})[l] == (LiveDirs(dirs) - {k})[l]
    {
      LiveAt(dirs, l);
      LiveAt(dirs - {Live(k)}, l);
    }
  }

  lemma StagedLive(s: System, c: Content)
    ensures LiveDirs(WithStage(s, c).dirs) == LiveDirs(s.dirs)
  {
    hide LiveDirs;
    SameLive(s.dirs, WithStage(s, c).dirs);
  }

  lemma SettledMeaning(s: System, stage: Option<nat>, req: Request, w: Swap, faults: set<Fault>)
    ensures Meaning(Settled(s, stage, req, w, faults).sys) == Abstract(w.records, LiveDirs(w.dirs))
  {
    hide LiveDirs;
    if stage.Some? {
      SameLive(w.dirs, WithoutStage(w.dirs, stage.value, faults));
    }
  }

  /** A swap is done, not done, or (its backup cannot be deleted) done in the registry only. */
  ghost predicate SwapMeans(w: Swap, records: Registry, live: map<Key, Content>, goes: bool, half: bool,
                            after: Registry, left: Registry, liveAfter: map<Key, Content>)
  {
    && w.ok == (goes && !half)
    && w.records == (if !goes then records else if half then left else after)
    && LiveDirs(w.dirs) == if w.ok then liveAfter else live
  }

  lemma ReplacedMeaning(records: Registry, dirs: Tree, k: Key, n: nat, after: Registry, faults: set<Fault>)
    requires Staged(n) in dirs
    ensures var had, live := Live(k) in dirs, LiveDirs(dirs);
      var goes := (had ==> BackupRename !in faults) && Promote !in faults && StoreWrite !in faults;
      SwapMeans(Replaced(records, dirs, k, n, after, faults), records, live, goes, had && DropBackup in faults,
                after, after, live[k := dirs[Staged(n)]])
  {
    hide LiveDirs;
    var bare := dirs - {Staged(n)};
    SameLive(dirs, bare);
    LivePut(bare, k, dirs[Staged(n)]);
  }

  lemma RetiredMeaning(records: Registry, dirs: Tree, k: Key, after: Registry, compensated: Option<Registry>,
                       faults: set<Fault>)
    ensures var had, live := Live(k) in dirs, LiveDirs(dirs);
      var goes := (had ==> BackupRename !in faults) && StoreWrite !in faults;
      SwapMeans(Retired(records, dirs, k, after, compensated, faults), records, live, goes, had && DropBackup in faults,
                after, if compensated.Some? then compensated.value else after, live - {k})
  {
    hide LiveDirs;
    LiveDropped(dirs, k);
  }

  lemma InsertMeaning(records: Registry, dirs: Tree, n: nat, rec: Record, env: Env)
    requires Staged(n) in dirs
    ensures var k, live := rec.Key(), LiveDirs(dirs); var after := records[k := rec];
      var goes := StoreWrite !in env.faults && (rec.enabled ==> Promote !in env.faults && Live(k) !in dirs);
      SwapMeans(InsertSwap(records, dirs, n, rec, env), records, live, goes, false, after, after,
                if rec.enabled then live[k := dirs[Staged(n)]] else live)
  {
    hide LiveDirs;
    var bare := dirs - {Staged(n)};
    SameLive(dirs, bare);
    LivePut(bare, rec.Key(), dirs[Staged(n)]);
  }

  // ---- When a call succeeds ----

  /** Everything a call checks before it changes anything. */
  predicate Accepted(s: System, req: Request, env: Env) {
    var k := req.Target();
    && (match req
        case Add(rec) => s.rules.identityOk(rec) && !s.rules.builtin(k) && !Taken(s.records, k.id)
        case Update(_, patch) => k in s.records && s.rules.identityOk(s.records[k].Patched(patch))
        case Enable(_) => k in s.records
        case Disable(_) => k in s.records
        case Remove(_) => k in s.records && !s.rules.builtin(k))
    && (req.Disable? || req.Remove?
        || (if SourceBacked(k.kind) then env.source.Some? && s.rules.passes(k, env.source.value)
            else s.rules.mcpOk(Settings(s, req))))
  }

  function Settings(s: System, req: Request): Config {
    match req
    case Add(rec) => rec.config
    case _ =>
      var k := req.Target();
      if k !in s.records then map[]
      else if req.Update? then s.records[k].Patched(req.patch).config else s.records[k].config
  }

  /** The call puts a directory in place. */
  predicate Promotes(s: System, req: Request, env: Env) {
    var k := req.Target();
    && SourceBacked(k.kind)
    && match req
       case Add(rec) => Created(rec, env.now).enabled
       case Update(_, _) => k in s.records && s.records[k].enabled && k.kind == Skill
       case Enable(_) => k in s.records && !s.records[k].enabled
       case Disable(_) => false
       case Remove(_) => false
  }

  /** The call backs up the live directory, if there is one. */
  predicate BacksUp(s: System, req: Request) {
    var k := req.Target();
    match req
    case Add(_) => false
    case Update(_, _) => SourceBacked(k.kind) && k in s.records && s.records[k].enabled
    case Enable(_) => SourceBacked(k.kind) && k in s.records && !s.records[k].enabled
    case Disable(_) => true
    case Remove(_) => true
  }

  /** The registry write of the call goes through; enabling what is enabled writes nothing. */
  predicate Commits(s: System, req: Request, env: Env) {
    var k := req.Target();
    && Accepted(s, req, env)
    && (!(req.Enable? && k in s.records && s.records[k].enabled) ==> StoreWrite !in env.faults)
    && (BacksUp(s, req) && Live(k) in s.dirs ==> BackupRename !in env.faults)
    && (Promotes(s, req, env) ==> Promote !in env.faults && (req.Add? ==> Live(k) !in s.dirs))
  }

  // ---- One call is one atomic change, or none, or exactly one half-done state ----

  /** The row a failed deletion of the backup leaves behind when an update disables. */
  function Compensated(row: Record, patch: Patch, now: string): Record {
    row.Overwritten(row.Patched(patch), now).Overwritten(row, now)
  }

  predicate StagesContent(req: Request) {
    SourceBacked(req.Target().kind) && !req.Disable? && !req.Remove?
  }

  ghost predicate Explained(s: System, req: Request, env: Env, o: Outcome) {
    var k := req.Target();
    var before, after := Meaning(s), Meaning(o.sys);
    if !Commits(s, req, env) then !o.ok && after == before
    else if BacksUp(s, req) && Live(k) in s.dirs && DropBackup in env.faults then
      && !o.ok && after.live == before.live
      && after.records == (if req.Update? && k.kind != Skill
                           then s.records[k := Compensated(s.records[k], req.patch, env.now)]
                           else Intent(s, req, env).records)
    else after == Intent(s, req, env) && (o.ok <==> !(StagesContent(req) && DropStage in env.faults))
  }

  lemma SettledOk(s: System, stage: Option<nat>, req: Request, w: Swap, faults: set<Fault>)
    ensures Settled(s, stage, req, w, faults).ok <==> w.ok && (stage.None? || DropStage !in faults)
  {
  }

  lemma SettledMeans(s: System, stage: Option<nat>, req: Request, w: Swap, faults: set<Fault>)
    ensures var o := Settled(s, stage, req, w, faults);
      && Meaning(o.sys) == Abstract(w.records, LiveDirs(w.dirs))
      && (o.ok <==> w.ok && (stage.None? || DropStage !in faults))
  {
    SettledMeaning(s, stage, req, w, faults);
    SettledOk(s, stage, req, w, faults);
  }

  lemma AddExplained(s: System, req: Request, env: Env)
    requires Inv(s) && req.Add?
    ensures Explained(s, req, env, AddStep(s, req, env))
  {
    hide LiveDirs, Inv, Settled;
    var k, rec := req.rec.Key(), Created(req.rec, env.now);
    if !SourceBacked(k.kind) {
      hide WithStage, InsertSwap;
      SettledMeans(s, None, req,
                   Written(s.records, s.dirs, Applied(s.records, Insert(rec), env.now), env.faults), env.faults);
    } else if env.source.Some? {
      AddPackageExplained(s, req, rec, env);
    }
  }

  lemma AddPackageExplained(s: System, req: Request, rec: Record, env: Env)
    requires Inv(s) && req.Add? && SourceBacked(rec.kind) && env.source.Some? && rec == Created(req.rec, env.now)
    ensures Explained(s, req, env, AddStep(s, req, env))
  {
    hide LiveDirs, Inv, WithStage, InsertSwap, Settled, Taken;
    var k, c := rec.Key(), env.source.value;
    var u := WithStage(s, c);
    StagedInv(s, k, c);
    StagedLive(s, c);
    InsertMeaning(s.records, u.dirs, s.uuid, rec, env);
    SettledMeans(u, Some(s.uuid), req, Swap(s.records, u.dirs, false, false), env.faults);
    SettledMeans(Passed(u, k, c), Some(s.uuid), req, InsertSwap(s.records, u.dirs, s.uuid, rec, env), env.faults);
  }

  lemma UpdateSwapMeaning(s: System, k: Key, n: nat, patch: Patch, env: Env)
    requires k in s.records && s.records[k].kind == k.kind && Staged(n) in s.dirs
    ensures var row, live, had := s.records[k], LiveDirs(s.dirs), Live(k) in s.dirs;
      var next := row.Patched(patch);
      var after := s.records[k := next.(updatedAt := env.now)];
      var goes := StoreWrite !in env.faults
        && (row.enabled && had ==> BackupRename !in env.faults) && (next.enabled ==> Promote !in env.faults);
      SwapMeans(UpdateSwap(s.records, s.dirs, k, n, next, env), s.records, live, goes,
                row.enabled && had && DropBackup in env.faults, after,
                if next.enabled then after else s.records[k := Compensated(row, patch, env.now)],
                if next.enabled then live[k := s.dirs[Staged(n)]] else if row.enabled then live - {k} else live)
  {
    hide LiveDirs;
    var row := s.records[k];
    var next := row.Patched(patch);
    var after := Applied(s.records, Overwrite(k, next), env.now);
    OverwrittenByPatched(row, patch, env.now);
    assert after == s.records[k := next.(updatedAt := env.now)];
    ReplacedMeaning(s.records, s.dirs, k, n, after, env.faults);
    RetiredMeaning(s.records, s.dirs, k, after, Some(Applied(after, Overwrite(k, row), env.now)), env.faults);
    hide Replaced, Retired;
  }

  /** The store merges settings again, which changes nothing on the way forward. */
  lemma OverwrittenByPatched(row: Record, patch: Patch, now: string)
    ensures row.Overwritten(row.Patched(patch), now) == row.Patched(patch).(updatedAt := now)
  {
    assert row.config + (row.config + patch.config) == row.config + patch.config;
  }

  lemma McpNotLive(s: System, k: Key)
    requires Inv(s) && !SourceBacked(k.kind)
    ensures LiveDirs(s.dirs) - {k} == LiveDirs(s.dirs)
  {
    LiveAt(s.dirs, k);
    hide LiveDirs;
  }

  lemma McpUpdateExplained(s: System, req: Request, env: Env)
    requires Inv(s) && req.Update? && req.key in s.records && !SourceBacked(req.key.kind)
    ensures Explained(s, req, env, UpdateStep(s, req, env))
  {
    var k := req.key;
    KeyOf(s, k);
    McpNotLive(s, k);
    hide LiveDirs, Inv, Settled;
    var next := s.records[k].Patched(req.patch);
    OverwrittenByPatched(s.records[k], req.patch, env.now);
    SettledMeans(s, None, req,
                 Written(s.records, s.dirs, Applied(s.records, Overwrite(k, next), env.now), env.faults), env.faults);
  }

  lemma UpdateExplained(s: System, req: Request, env: Env)
    requires Inv(s) && req.Update?
    ensures Explained(s, req, env, UpdateStep(s, req, env))
  {
    var k := req.key;
    if k in s.records {
      KeyOf(s, k);
      hide LiveDirs, Inv, WithStage, UpdateSwap, Settled;
      if !SourceBacked(k.kind) {
        McpUpdateExplained(s, req, env);
      } else if env.source.Some? && s.rules.passes(k, env.source.value) {
        PackageUpdateExplained(s, req, env);
      } else if env.source.Some? {
        StagedLive(s, env.source.value);
        StagedRecords(s, env.source.value);
      }
    }
  }

  lemma StagedRecords(s: System, c: Content)
    ensures WithStage(s, c).records == s.records
  {
  }

  lemma PackageUpdateExplained(s: System, req: Request, env: Env)
    requires Inv(s) && req.Update? && req.key in s.records && s.records[req.key].Key() == req.key
    requires SourceBacked(req.key.kind) && env.source.Some? && s.rules.passes(req.key, env.source.value)
    ensures Explained(s, req, env, UpdateStep(s, req, env))
  {
    hide LiveDirs, Inv, WithStage, UpdateSwap, Settled, Compensated;
    var k, c := req.key, env.source.value;
    var u := WithStage(s, c);
    StagedInv(s, k, c);
    StagedLive(s, c);
    var w := UpdateSwap(s.records, u.dirs, k, s.uuid, s.records[k].Patched(req.patch), env);
    UpdateSwapMeaning(u, k, s.uuid, req.patch, env);
    SettledMeans(Passed(u, k, c), Some(s.uuid), req, w, env.faults);
  }

  lemma EnableExplained(s: System, req: Request, env: Env)
    requires Inv(s) && req.Enable?
    ensures Explained(s, req, env, EnableStep(s, req, env))
  {
    hide LiveDirs, Inv, WithStage, Replaced, Settled;
    var k := req.key;
    if k in s.records {
      var after := Applied(s.records, SetEnabled(k, true), env.now);
      if !SourceBacked(k.kind) {
        SettledMeans(s, None, req, Written(s.records, s.dirs, after, env.faults), env.faults);
        SettledMeans(s, None, req, Swap(s.records, s.dirs, true, true), env.faults);
      } else if env.source.Some? {
        EnablePackageExplained(s, req, env.source.value, env);
      }
    }
  }

  lemma EnablePackageExplained(s: System, req: Request, c: Content, env: Env)
    requires Inv(s) && req.Enable? && req.key in s.records && SourceBacked(req.key.kind) && env.source == Some(c)
    ensures Explained(s, req, env, EnableStep(s, req, env))
  {
    hide LiveDirs, Inv, WithStage, Replaced, Settled;
    var k := req.key;
    var after := Applied(s.records, SetEnabled(k, true), env.now);
    var u := WithStage(s, c);
    StagedInv(s, k, c);
    StagedLive(s, c);
    var passes := s.rules.passes(k, c);
    if s.records[k].enabled {
      SettledMeans(if passes then Passed(u, k, c) else u, Some(s.uuid), req,
                   Swap(s.records, u.dirs, passes, passes), env.faults);
    } else if passes {
      ReplacedMeaning(s.records, u.dirs, k, s.uuid, after, env.faults);
      SettledMeans(Passed(u, k, c), Some(s.uuid), req,
                   Replaced(s.records, u.dirs, k, s.uuid, after, env.faults), env.faults);
    }
  }

  lemma DisableExplained(s: System, req: Request, env: Env)
    requires Inv(s) && req.Disable?
    ensures Explained(s, req, env, DisableStep(s, req, env))
  {
    hide LiveDirs, Inv, Retired, Settled;
    var after := Applied(s.records, SetEnabled(req.key, false), env.now);
    RetiredMeaning(s.records, s.dirs, req.key, after, None, env.faults);
    SettledMeans(s, None, req, Retired(s.records, s.dirs, req.key, after, None, env.faults), env.faults);
  }

  lemma RemoveExplained(s: System, req: Request, env: Env)
    requires Inv(s) && req.Remove?
    ensures Explained(s, req, env, RemoveStep(s, req, env))
  {
    hide LiveDirs, Inv, Retired, Settled;
    var after := Applied(s.records, Delete(req.key), env.now);
    RetiredMeaning(s.records, s.dirs, req.key, after, None, env.faults);
    SettledMeans(s, None, req, Retired(s.records, s.dirs, req.key, after, None, env.faults), env.faults);
  }

  /** A call whose registry write does not go through changes neither registry nor live
      directories. One whose write goes through makes exactly its intended change, and reports
      it unless its staging root stays; except that, if its backup cannot be deleted, it reports
      failure with the old directory back under the new registry, or under the compensated row. */
  lemma EveryCallExplained(s: System, req: Request, env: Env)
    requires Inv(s)
    ensures Explained(s, req, env, Step(s, req, env))
  {
    hide Inv, Explained;
    match req
    case Add(_) => AddExplained(s, req, env);
    case Update(_, _) => UpdateExplained(s, req, env);
    case Enable(_) => EnableExplained(s, req, env);
    case Disable(_) => DisableExplained(s, req, env);
    case Remove(_) => RemoveExplained(s, req, env);
  }

  /** If nothing fails underneath, the checks alone decide; except that a directory left
      by a removal blocks adding the same capability enabled, for good. */
  lemma SucceedsIffAccepted(s: System, req: Request, env: Env)
    requires Inv(s) && env.faults == {}
    ensures Step(s, req, env).ok <==>
      Accepted(s, req, env) && !(req.Add? && Promotes(s, req, env) && Live(req.rec.Key()) in s.dirs)
  {
    EveryCallExplained(s, req, env);
    hide Inv, Step, Meaning, Intent, Accepted;
  }

  // ---- Directories without an enabled record ----

  /** The directory of `k` is live but no enabled record asks for it. */
  predicate Orphan(records: Registry, dirs: Tree, k: Key) {
    Live(k) in dirs && !(k in records && records[k].enabled)
  }

  /** Such a directory comes into being in exactly one way. */
  lemma OrphanArises(s: System, req: Request, env: Env, k: Key)
    requires Inv(s) && !Orphan(s.records, s.dirs, k)
    ensures var u := Step(s, req, env).sys;
      Orphan(u.records, u.dirs, k) <==>
      && (req == Disable(k) || (req == Remove(k) && !s.rules.builtin(k)))
      && Live(k) in s.dirs && DropBackup in env.faults
      && BackupRename !in env.faults && StoreWrite !in env.faults
  {
    hide Inv, AddStep, UpdateStep, EnableStep;
    match req
    case Add(_) => AddOrphansNothing(s, req, env, k);
    case Update(_, _) => UpdateOrphansNothing(s, req, env, k);
    case Enable(_) => EnableOrphansNothing(s, req, env, k);
    case Disable(_) =>
    case Remove(_) =>
  }

  lemma SettledOrphan(s: System, stage: Option<nat>, req: Request, w: Swap, faults: set<Fault>, k: Key)
    ensures var u := Settled(s, stage, req, w, faults).sys;
      Orphan(u.records, u.dirs, k) <==> Orphan(w.records, w.dirs, k)
  {
  }

  lemma ReplacedOrphansNothing(records: Registry, dirs: Tree, t: Key, n: nat, after: Registry,
                               faults: set<Fault>, k: Key)
    requires Staged(n) in dirs && Elsewhere(records, after, t) && t in after && after[t].enabled
    requires !Orphan(records, dirs, k)
    ensures var w := Replaced(records, dirs, t, n, after, faults); !Orphan(w.records, w.dirs, k)
  {
  }

  lemma RetiredOrphansNothing(records: Registry, dirs: Tree, t: Key, after: Registry, undone: Registry,
                              faults: set<Fault>, k: Key)
    requires Elsewhere(records, after, t) && Elsewhere(records, undone, t) && t in undone && undone[t].enabled
    requires !Orphan(records, dirs, k)
    ensures var w := Retired(records, dirs, t, after, Some(undone), faults); !Orphan(w.records, w.dirs, k)
  {
  }

  lemma WrittenOrphansNothing(records: Registry, dirs: Tree, t: Key, after: Registry, faults: set<Fault>, k: Key)
    requires Elsewhere(records, after, t) && (t in records && records[t].enabled ==> t in after && after[t].enabled)
    requires !Orphan(records, dirs, k)
    ensures var w := Written(records, dirs, after, faults); !Orphan(w.records, w.dirs, k)
  {
  }

  lemma InsertOrphansNothing(records: Registry, dirs: Tree, n: nat, rec: Record, env: Env, k: Key)
    requires Staged(n) in dirs && rec.Key() !in records && !Orphan(records, dirs, k)
    ensures var w := InsertSwap(records, dirs, n, rec, env); !Orphan(w.records, w.dirs, k)
  {
  }

  lemma AddOrphansNothing(s: System, req: Request, env: Env, k: Key)
    requires Inv(s) && req.Add? && !Orphan(s.records, s.dirs, k)
    ensures var u := AddStep(s, req, env).sys; !Orphan(u.records, u.dirs, k)
  {
    hide Inv, InsertSwap, Settled, Applied;
    var t, rec := req.rec.Key(), Created(req.rec, env.now);
    if !Taken(s.records, t.id) {
      assert t !in s.records;
      AppliedInsert(s.records, rec, env.now);
      WrittenOrphansNothing(s.records, s.dirs, t, Applied(s.records, Insert(rec), env.now), env.faults, k);
      SettledOrphan(s, None, req, Written(s.records, s.dirs, Applied(s.records, Insert(rec), env.now), env.faults),
                    env.faults, k);
      if env.source.Some? {
        AddPackageOrphansNothing(s, req, rec, env.source.value, env, k);
      }
    }
  }

  lemma AppliedInsert(records: Registry, rec: Record, now: string)
    ensures Elsewhere(records, Applied(records, Insert(rec), now), rec.Key())
  {
  }

  lemma AddPackageOrphansNothing(s: System, req: Request, rec: Record, c: Content, env: Env, k: Key)
    requires Inv(s) && req.Add? && !Orphan(s.records, s.dirs, k) && rec == Created(req.rec, env.now)
    requires rec.Key() !in s.records
    ensures Staged(s.uuid) in WithStage(s, c).dirs
    ensures var u := WithStage(s, c);
      var v := Settled(u, Some(s.uuid), req, Swap(s.records, u.dirs, false, false), env.faults).sys;
      !Orphan(v.records, v.dirs, k)
    ensures var u := WithStage(s, c);
      var w := InsertSwap(s.records, u.dirs, s.uuid, rec, env);
      var v := Settled(Passed(u, rec.Key(), c), Some(s.uuid), req, w, env.faults).sys;
      !Orphan(v.records, v.dirs, k)
  {
    var u := WithStage(s, c);
    StagedInv(s, rec.Key(), c);
    hide Inv, InsertSwap, Settled, WithStage;
    InsertOrphansNothing(s.records, u.dirs, s.uuid, rec, env, k);
    SettledOrphan(u, Some(s.uuid), req, Swap(s.records, u.dirs, false, false), env.faults, k);
    SettledOrphan(Passed(u, rec.Key(), c), Some(s.uuid), req,
                  InsertSwap(s.records, u.dirs, s.uuid, rec, env), env.faults, k);
  }

  lemma UpdateOrphansNothing(s: System, req: Request, env: Env, k: Key)
    requires Inv(s) && req.Update? && !Orphan(s.records, s.dirs, k)
    ensures var u := UpdateStep(s, req, env).sys; !Orphan(u.records, u.dirs, k)
  {
    var t := req.key;
    if t in s.records {
      KeyOf(s, t);
      var next := s.records[t].Patched(req.patch);
      if env.source.Some? && SourceBacked(t.kind) {
        StagedInv(s, t, env.source.value);
        UpdateSwapOrphansNothing(WithStage(s, env.source.value), t, s.uuid, next, env, k);
        var u := Passed(WithStage(s, env.source.value), t, env.source.value);
        SettledOrphan(u, Some(s.uuid), req, UpdateSwap(s.records, u.dirs, t, s.uuid, next, env), env.faults, k);
      }
      if !SourceBacked(t.kind) {
        NoMcpOrphan(s, t);
        var w := Written(s.records, s.dirs, Applied(s.records, Overwrite(t, next), env.now), env.faults);
        SettledOrphan(s, None, req, w, env.faults, k);
      }
      hide Settled, Inv, UpdateSwap;
    }
  }

  lemma NoMcpOrphan(s: System, k: Key)
    requires Inv(s) && !SourceBacked(k.kind)
    ensures Live(k) !in s.dirs
  {
  }

  lemma UpdateSwapOrphansNothing(s: System, t: Key, n: nat, next: Record, env: Env, k: Key)
    requires Inv(s) && t in s.records && next.Key() == t && Staged(n) in s.dirs && !Orphan(s.records, s.dirs, k)
    ensures var w := UpdateSwap(s.records, s.dirs, t, n, next, env); !Orphan(w.records, w.dirs, k)
  {
    KeyOf(s, t);
    var row := s.records[t];
    var after := Applied(s.records, Overwrite(t, next), env.now);
    var undone := Applied(after, Overwrite(t, row), env.now);
    AppliedKeeps(s.records, Overwrite(t, next), env.now);
    AppliedKeeps(after, Overwrite(t, row), env.now);
    ElsewhereTrans(s.records, after, undone, t);
    hide Inv, Retired, Replaced, Written, Elsewhere, RegistrySound;
    if row.enabled && !next.enabled {
      RetiredOrphansNothing(s.records, s.dirs, t, after, undone, env.faults, k);
    } else if next.enabled {
      ReplacedOrphansNothing(s.records, s.dirs, t, n, after, env.faults, k);
    } else {
      WrittenOrphansNothing(s.records, s.dirs, t, after, env.faults, k);
    }
  }

  lemma EnableOrphansNothing(s: System, req: Request, env: Env, k: Key)
    requires Inv(s) && req.Enable? && !Orphan(s.records, s.dirs, k)
    ensures var u := EnableStep(s, req, env).sys; !Orphan(u.records, u.dirs, k)
  {
    hide Inv, Written, Applied, Settled, Orphan, Elsewhere, Replaced;
    var t := req.key;
    if t in s.records {
      var after := Applied(s.records, SetEnabled(t, true), env.now);
      AppliedKeepsEnabled(s, t, env.now);
      if SourceBacked(t.kind) {
        if env.source.Some? {
          EnablePackageOrphansNothing(s, req, after, env.source.value, env, k);
        }
      } else {
        WrittenOrphansNothing(s.records, s.dirs, t, after, env.faults, k);
        SettledOrphan(s, None, req, Written(s.records, s.dirs, after, env.faults), env.faults, k);
        SettledOrphan(s, None, req, Swap(s.records, s.dirs, true, true), env.faults, k);
      }
    }
  }

  lemma AppliedKeepsEnabled(s: System, t: Key, now: string)
    requires Inv(s) && t in s.records
    ensures var after := Applied(s.records, SetEnabled(t, true), now);
      Elsewhere(s.records, after, t) && t in after && after[t].enabled
  {
    AppliedKeeps(s.records, SetEnabled(t, true), now);
  }

  lemma EnablePackageOrphansNothing(s: System, req: Request, after: Registry, c: Content, env: Env, k: Key)
    requires Inv(s) && req.Enable? && !Orphan(s.records, s.dirs, k)
    requires Elsewhere(s.records, after, req.key) && req.key in after && after[req.key].enabled
    ensures Staged(s.uuid) in WithStage(s, c).dirs && !Orphan(s.records, WithStage(s, c).dirs, k)
    ensures forall ok: bool, v: System ::
      var u := Settled(v, Some(s.uuid), req, Swap(s.records, WithStage(s, c).dirs, ok, ok), env.faults).sys;
      !Orphan(u.records, u.dirs, k)
    ensures forall v: System ::
      var w := Replaced(s.records, WithStage(s, c).dirs, req.key, s.uuid, after, env.faults);
      var u := Settled(v, Some(s.uuid), req, w, env.faults).sys;
      !Orphan(u.records, u.dirs, k)
  {
    StagedInv(s, req.key, c);
    var dirs := WithStage(s, c).dirs;
    var w := Replaced(s.records, dirs, req.key, s.uuid, after, env.faults);
    ReplacedOrphansNothing(s.records, dirs, req.key, s.uuid, after, env.faults, k);
    hide Inv, Settled, WithStage, Elsewhere;
    forall ok: bool, v: System
      ensures var u := Settled(v, Some(s.uuid), req, Swap(s.records, dirs, ok, ok), env.faults).sys;
        !Orphan(u.records, u.dirs, k)
    {
      SettledOrphan(v, Some(s.uuid), req, Swap(s.records, dirs, ok, ok), env.faults, k);
    }
    forall v: System
      ensures var u := Settled(v, Some(s.uuid), req, w, env.faults).sys; !Orphan(u.records, u.dirs, k)
    {
      SettledOrphan(v, Some(s.uuid), req, w, env.faults, k);
    }
  }
}
