/**
 User capabilities: a registry table and a directory tree that have to agree.
 A step is one whole lifecycle call, with everything that may go wrong inside it.
 */
module CapabilityState {
  import opened Basics

  type Content = string

  datatype Kind = Skill | Tool | Worker | Mcp

  datatype Key = K(kind: Kind, id: string)

  datatype Installer = Cli | Agent | Seed

  type Config = map<string, string>

  datatype Record = Record(
    kind: Kind, id: string, name: string, description: string, source: string, sourceRef: string,
    version: Option<string>, enabled: bool, config: Config,
    installedAt: string, updatedAt: string, installedBy: Installer)
  {
    function Key(): Key { K(kind, id) }

    /** Keys of an absent or undefined setting do not occur in the patch. */
    function Patched(p: Patch): Record {
      this.(name := p.name.Or(name), description := p.description.Or(description),
            source := p.source.Or(source), sourceRef := p.sourceRef.Or(sourceRef),
            version := p.version.Or(version),
            config := config + p.config,
            enabled := kind == Skill && enabled)
    }

    /** What the store makes of a row and a whole record written over it. */
    function Overwritten(row: Record, now: string): Record {
      this.(name := row.name, description := row.description, source := row.source, sourceRef := row.sourceRef,
            version := row.version, enabled := row.enabled, config := config + row.config, updatedAt := now)
    }
  }

  datatype Field<T> = Keep | Set(value: T) {
    function Or(current: T): T { if Set? then value else current }
  }

  datatype Patch = Patch(
    name: Field<string>, description: Field<string>, source: Field<string>, sourceRef: Field<string>,
    version: Field<Option<string>>, config: Config)

  datatype Path = Live(key: Key) | Backup(saved: Key, uuid: nat) | Root(uuid: nat) | Staged(uuid: nat)

  type Registry = map<Key, Record>
  type Tree = map<Path, Content>

  /** The parts of the program that are looked at only through their verdicts. */
  datatype Rules = Rules(
    builtin: Key -> bool,
    identityOk: Record -> bool,
    mcpOk: Config -> bool,
    passes: (Key, Content) -> bool)

  datatype Fault = BackupRename | Promote | StoreWrite | DropBackup | DropStage

  /** The clock, what staging the source yields, and what goes wrong. */
  datatype Env = Env(now: string, source: Option<Content>, faults: set<Fault>)

  datatype Request =
    | Add(rec: Record)
    | Update(key: Key, patch: Patch)
    | Enable(key: Key)
    | Disable(key: Key)
    | Remove(key: Key)
  {
    function Target(): Key { if Add? then rec.Key() else key }
  }

  datatype System = System(
    rules: Rules,
    records: Registry,
    dirs: Tree,
    uuid: nat,
    validated: set<(Key, Content)>,     // history: contents that passed validation, for whom
    committed: map<Key, Request>,       // history: the last request whose registry write stands
    succeeded: map<Key, Request>)       // history: the last request that reported success

  datatype Outcome = Outcome(sys: System, ok: bool)

  predicate SourceBacked(k: Kind) { k != Mcp }

  function LiveDirs(dirs: Tree): map<Key, Content> {
    map p | p in dirs && p.Live? :: p.key := dirs[p]
  }

  // ---- Registry writes, one statement each ----

  datatype Write =
    | Insert(row: Record)
    | Overwrite(key: Key, row: Record)
    | SetEnabled(key: Key, enabled: bool)
    | Delete(key: Key)

  function Applied(records: Registry, w: Write, now: string): Registry {
    match w
    case Insert(row) => records[row.Key() := row]
    case Overwrite(k, row) =>
      if k in records then records[k := records[k].Overwritten(row, now)] else records
    case SetEnabled(k, enabled) =>
      if k in records then records[k := records[k].(enabled := enabled, updatedAt := now)] else records
    case Delete(k) => records - {k}
  }

  // ---- The transactional core: net effect of stage, backup, promote, commit, roll back ----

  datatype Swap = Swap(records: Registry, dirs: Tree, ok: bool, committed: bool)

  /** Put a staged directory in place of the live one, around a registry write. */
  function Replaced(records: Registry, dirs: Tree, k: Key, n: nat, after: Registry, faults: set<Fault>): Swap
    requires Staged(n) in dirs
  {
    var had := Live(k) in dirs;
    if (had && BackupRename in faults) || Promote in faults then Swap(records, dirs, false, false)
    else if StoreWrite in faults then Swap(records, dirs - {Staged(n)}, false, false)
    else if had && DropBackup in faults then Swap(after, dirs - {Staged(n)}, false, true)
    else Swap(after, (dirs - {Staged(n)})[Live(k) := dirs[Staged(n)]], true, true)
  }

  /** Take the live directory away, around a registry write. A failed deletion of the
      backup puts the directory back; the write stands unless it is compensated. */
  function Retired(records: Registry, dirs: Tree, k: Key, after: Registry, compensated: Option<Registry>,
                   faults: set<Fault>): Swap
  {
    var had := Live(k) in dirs;
    if (had && BackupRename in faults) || StoreWrite in faults then Swap(records, dirs, false, false)
    else if had && DropBackup in faults then
      Swap(if compensated.Some? then compensated.value else after, dirs, false, compensated.None?)
    else Swap(after, dirs - {Live(k)}, true, true)
  }

  /** First time a directory is promoted; nothing is backed up. */
  function Placed(records: Registry, dirs: Tree, k: Key, n: nat, after: Registry, faults: set<Fault>): Swap
    requires Staged(n) in dirs
  {
    if Promote in faults || Live(k) in dirs then Swap(records, dirs, false, false)
    else if StoreWrite in faults then Swap(records, dirs - {Staged(n)}, false, false)
    else Swap(after, (dirs - {Staged(n)})[Live(k) := dirs[Staged(n)]], true, true)
  }

  function Written(records: Registry, dirs: Tree, after: Registry, faults: set<Fault>): Swap {
    if StoreWrite in faults then Swap(records, dirs, false, false) else Swap(after, dirs, true, true)
  }

  // ---- Staging ----

  function WithStage(s: System, c: Content): System {
    s.(dirs := s.dirs[Root(s.uuid) := ""][Staged(s.uuid) := c], uuid := s.uuid + 1)
  }

  function WithoutStage(dirs: Tree, n: nat, faults: set<Fault>): Tree {
    if DropStage in faults then dirs else dirs - {Root(n), Staged(n)}
  }

  /** Settle a call's swap: drop the staging root, if there is one, and note the history. */
  function Settled(s: System, stage: Option<nat>, req: Request, w: Swap, faults: set<Fault>): Outcome {
    var k := req.Target();
    var ok := w.ok && (stage.None? || DropStage !in faults);
    Outcome(
      s.(records := w.records,
         dirs := if stage.Some? then WithoutStage(w.dirs, stage.value, faults) else w.dirs,
         committed := if w.committed then s.committed[k := req] else s.committed,
         succeeded := if ok then s.succeeded[k := req] else s.succeeded),
      ok)
  }

  function Rejected(s: System): Outcome { Outcome(s, false) }

  function Passed(s: System, k: Key, c: Content): System {
    s.(validated := s.validated + {(k, c)})
  }

  // ---- One call each ----

  predicate Taken(records: Registry, id: string) {
    exists k :: k in records && k.id == id
  }

  function Created(rec: Record, now: string): Record {
    rec.(enabled := rec.enabled && (rec.kind == Skill || rec.installedBy != Agent),
         installedAt := now, updatedAt := now)
  }

  function InsertSwap(records: Registry, dirs: Tree, n: nat, rec: Record, env: Env): Swap
    requires Staged(n) in dirs
  {
    var after := Applied(records, Insert(rec), env.now);
    if rec.enabled then Placed(records, dirs, rec.Key(), n, after, env.faults)
    else Written(records, dirs, after, env.faults)
  }

  function AddStep(s: System, req: Request, env: Env): Outcome
    requires req.Add?
  {
    var k := req.rec.Key();
    if !s.rules.identityOk(req.rec) || s.rules.builtin(k) || Taken(s.records, k.id) then Rejected(s)
    else
      var rec := Created(req.rec, env.now);
      if !SourceBacked(k.kind) then
        if !s.rules.mcpOk(rec.config) then Rejected(s)
        else Settled(s, None, req, Written(s.records, s.dirs, Applied(s.records, Insert(rec), env.now), env.faults),
                     env.faults)
      else if env.source.None? then Rejected(s.(uuid := s.uuid + 1))
      else
        var c := env.source.value;
        var u := WithStage(s, c);
        if !s.rules.passes(k, c) then
          Settled(u, Some(s.uuid), req, Swap(s.records, u.dirs, false, false), env.faults)
        else
          Settled(Passed(u, k, c), Some(s.uuid), req, InsertSwap(s.records, u.dirs, s.uuid, rec, env), env.faults)
  }

  /** Disable, replace, or only write, as the new record demands. */
  function UpdateSwap(records: Registry, dirs: Tree, k: Key, n: nat, next: Record, env: Env): Swap
    requires k in records && Staged(n) in dirs
  {
    var existing := records[k];
    var after := Applied(records, Overwrite(k, next), env.now);
    if existing.enabled && !next.enabled then
      Retired(records, dirs, k, after, Some(Applied(after, Overwrite(k, existing), env.now)), env.faults)
    else if next.enabled then Replaced(records, dirs, k, n, after, env.faults)
    else Written(records, dirs, after, env.faults)
  }

  function UpdateStep(s: System, req: Request, env: Env): Outcome
    requires req.Update?
  {
    var k := req.key;
    if k !in s.records then Rejected(s)
    else
      var next := s.records[k].Patched(req.patch);
      if !s.rules.identityOk(next) then Rejected(s)
      else if !SourceBacked(k.kind) then
        if !s.rules.mcpOk(next.config) then Rejected(s)
        else Settled(s, None, req,
                     Written(s.records, s.dirs, Applied(s.records, Overwrite(k, next), env.now), env.faults),
                     env.faults)
      else if env.source.None? then Rejected(s.(uuid := s.uuid + 1))
      else
        var c := env.source.value;
        var u := WithStage(s, c);
        if !s.rules.passes(k, c) then Rejected(u)
        else
          var w := UpdateSwap(s.records, u.dirs, k, s.uuid, next, env);
          Settled(Passed(u, k, c), Some(s.uuid), req, w, env.faults)
  }

  function EnableStep(s: System, req: Request, env: Env): Outcome
    requires req.Enable?
  {
    var k := req.key;
    if k !in s.records then Rejected(s)
    else
      var existing := s.records[k];
      var after := if existing.enabled then s.records
                   else Applied(s.records, SetEnabled(k, true), env.now);
      if !SourceBacked(k.kind) then
        if !s.rules.mcpOk(existing.config) then Rejected(s)
        else Settled(s, None, req, if existing.enabled then Swap(s.records, s.dirs, true, true)
                                   else Written(s.records, s.dirs, after, env.faults), env.faults)
      else if env.source.None? then Rejected(s.(uuid := s.uuid + 1))
      else
        var c := env.source.value;
        var u := WithStage(s, c);
        if existing.enabled then
          Settled(if s.rules.passes(k, c) then Passed(u, k, c) else u, Some(s.uuid), req,
                  Swap(s.records, u.dirs, s.rules.passes(k, c), s.rules.passes(k, c)), env.faults)
        else if !s.rules.passes(k, c) then Rejected(u)
        else Settled(Passed(u, k, c), Some(s.uuid), req,
                     Replaced(s.records, u.dirs, k, s.uuid, after, env.faults), env.faults)
  }

  function DisableStep(s: System, req: Request, env: Env): Outcome
    requires req.Disable?
  {
    var k := req.key;
    if k !in s.records then Rejected(s)
    else
      var after := Applied(s.records, SetEnabled(k, false), env.now);
      Settled(s, None, req, Retired(s.records, s.dirs, k, after, None, env.faults), env.faults)
  }

  function RemoveStep(s: System, req: Request, env: Env): Outcome
    requires req.Remove?
  {
    var k := req.key;
    if s.rules.builtin(k) || k !in s.records then Rejected(s)
    else
      var after := Applied(s.records, Delete(k), env.now);
      Settled(s, None, req, Retired(s.records, s.dirs, k, after, None, env.faults), env.faults)
  }

  function Step(s: System, req: Request, env: Env): Outcome {
    match req
    case Add(_) => AddStep(s, req, env)
    case Update(_, _) => UpdateStep(s, req, env)
    case Enable(_) => EnableStep(s, req, env)
    case Disable(_) => DisableStep(s, req, env)
    case Remove(_) => RemoveStep(s, req, env)
  }

  // ---- What a call is meant to do: one atomic change of the registry and the live directories ----

  datatype Abstract = Abstract(records: Registry, live: map<Key, Content>)

  function Meaning(s: System): Abstract { Abstract(s.records, LiveDirs(s.dirs)) }

  /** What a call that gets through is meant to achieve: its registry write together with
      its change of the live directory, and nothing else. */
  function Intent(s: System, req: Request, env: Env): Abstract
    requires req.Add? || req.key in s.records
  {
    var a := Meaning(s);
    var k := req.Target();
    match req
    case Add(rec) =>
      var row := Created(rec, env.now);
      Abstract(a.records[k := row], if row.enabled then Promoted(a.live, k, env) else a.live)
    case Update(_, patch) =>
      var row := a.records[k].Patched(patch).(updatedAt := env.now);
      Abstract(a.records[k := row],
               if row.enabled then Promoted(a.live, k, env)
               else if a.records[k].enabled then a.live - {k} else a.live)
    case Enable(_) =>
      if a.records[k].enabled then a
      else Abstract(a.records[k := a.records[k].(enabled := true, updatedAt := env.now)], Promoted(a.live, k, env))
    case Disable(_) =>
      Abstract(a.records[k := a.records[k].(enabled := false, updatedAt := env.now)], a.live - {k})
    case Remove(_) => Abstract(a.records - {k}, a.live - {k})
  }

  function Promoted(live: map<Key, Content>, k: Key, env: Env): map<Key, Content> {
    if SourceBacked(k.kind) && env.source.Some? then live[k := env.source.value] else live
  }
}
