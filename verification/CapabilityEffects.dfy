/** What a lifecycle call that reports success has done, field by field. */
module CapabilityEffects {
  import opened CapabilityState
  import opened CapabilityInvariant
  import opened CapabilityTheorems

  /** Only the row of this capability is different, and there is one. */
  ghost predicate OnlyRow(before: Registry, after: Registry, k: Key) {
    after.Keys == before.Keys + {k} && forall l :: l in before && l != k ==> after[l] == before[l]
  }

  lemma SuccessIsIntent(s: System, req: Request, env: Env)
    requires Inv(s) && Step(s, req, env).ok
    ensures Accepted(s, req, env) && Meaning(Step(s, req, env).sys) == Intent(s, req, env)
  {
    EveryCallExplained(s, req, env);
    hide Inv, Step, Meaning, Intent, Accepted;
  }

  /** A new row for an id not taken: as asked, with two new stamps, and enabled if asked, unless an
      agent adds something that is not a skill. The staged content is live exactly if so enabled. */
  lemma AddStores(s: System, rec: Record, env: Env)
    requires Inv(s) && Step(s, Add(rec), env).ok
    ensures var u, k := Step(s, Add(rec), env).sys, K(rec.kind, rec.id);
      && (forall l :: l in s.records ==> l.id != rec.id)
      && OnlyRow(s.records, u.records, k)
      && (u.records[k].enabled <==> rec.enabled && (rec.kind == Skill || rec.installedBy != Agent))
      && u.records[k] == rec.(enabled := u.records[k].enabled, installedAt := env.now, updatedAt := env.now)
      && (if u.records[k].enabled && rec.kind != Mcp
          then env.source.Some? && LiveDirs(u.dirs) == LiveDirs(s.dirs)[k := env.source.value]
          else LiveDirs(u.dirs) == LiveDirs(s.dirs))
  {
    hide Inv, Step, LiveDirs, Meaning;
    SuccessIsIntent(s, Add(rec), env);
    MeaningIs(Step(s, Add(rec), env).sys);
    MeaningIs(s);
  }

  /** Every field as the patch says, or as it was; settings are merged; code is disabled by it. */
  lemma UpdateStores(s: System, k: Key, patch: Patch, env: Env)
    requires Inv(s) && Step(s, Update(k, patch), env).ok
    ensures var u := Step(s, Update(k, patch), env).sys;
      && k in s.records && OnlyRow(s.records, u.records, k)
      && var was, row := s.records[k], u.records[k];
      && row.kind == was.kind && row.id == was.id
      && row.name == (if patch.name.Set? then patch.name.value else was.name)
      && row.description == (if patch.description.Set? then patch.description.value else was.description)
      && row.source == (if patch.source.Set? then patch.source.value else was.source)
      && row.sourceRef == (if patch.sourceRef.Set? then patch.sourceRef.value else was.sourceRef)
      && row.version == (if patch.version.Set? then patch.version.value else was.version)
      && (forall key :: key in row.config <==> key in was.config || key in patch.config)
      && (forall key :: key in row.config ==>
            row.config[key] == if key in patch.config then patch.config[key] else was.config[key])
      && (row.enabled <==> was.enabled && was.kind == Skill)
      && row.installedAt == was.installedAt && row.installedBy == was.installedBy && row.updatedAt == env.now
      && (if row.enabled then env.source.Some? && LiveDirs(u.dirs) == LiveDirs(s.dirs)[k := env.source.value]
          else LiveDirs(u.dirs) == if was.enabled then LiveDirs(s.dirs) - {k} else LiveDirs(s.dirs))
  {
    hide Inv, Step, LiveDirs, Meaning;
    SuccessIsIntent(s, Update(k, patch), env);
    MeaningIs(Step(s, Update(k, patch), env).sys);
    MeaningIs(s);
    KeyOf(s, k);
  }

  /** An enabled row stays as it is; another is enabled and stamped, and its staged content live. */
  lemma EnableStores(s: System, k: Key, env: Env)
    requires Inv(s) && Step(s, Enable(k), env).ok
    ensures var u := Step(s, Enable(k), env).sys;
      && k in s.records && OnlyRow(s.records, u.records, k)
      && u.records[k] == (if s.records[k].enabled then s.records[k]
                          else s.records[k].(enabled := true, updatedAt := env.now))
      && (if !s.records[k].enabled && k.kind != Mcp
          then env.source.Some? && LiveDirs(u.dirs) == LiveDirs(s.dirs)[k := env.source.value]
          else LiveDirs(u.dirs) == LiveDirs(s.dirs))
  {
    hide Inv, Step, LiveDirs, Meaning, Taken;
    SuccessIsIntent(s, Enable(k), env);
    MeaningIs(Step(s, Enable(k), env).sys);
    MeaningIs(s);
  }

  lemma MeaningIs(s: System)
    ensures Meaning(s).records == s.records && Meaning(s).live == LiveDirs(s.dirs)
  {
  }

  lemma DisableStores(s: System, k: Key, env: Env)
    requires Inv(s) && Step(s, Disable(k), env).ok
    ensures var u := Step(s, Disable(k), env).sys;
      && k in s.records && OnlyRow(s.records, u.records, k)
      && u.records[k] == s.records[k].(enabled := false, updatedAt := env.now)
      && LiveDirs(u.dirs) == LiveDirs(s.dirs) - {k}
  {
    SuccessIsIntent(s, Disable(k), env);
    hide Inv, Step, LiveDirs;
  }

  lemma RemoveStores(s: System, k: Key, env: Env)
    requires Inv(s) && Step(s, Remove(k), env).ok
    ensures var u := Step(s, Remove(k), env).sys;
      k in s.records && u.records == s.records - {k} && LiveDirs(u.dirs) == LiveDirs(s.dirs) - {k}
  {
    SuccessIsIntent(s, Remove(k), env);
    hide Inv, Step, LiveDirs;
  }

  // ---- When a call is accepted ----

  /** What is checked of contents and settings: a staged package passes validation, and the
      settings of an MCP record are right. */
  predicate Sound(s: System, k: Key, config: Config, env: Env) {
    if k.kind == Mcp then s.rules.mcpOk(config) else env.source.Some? && s.rules.passes(k, env.source.value)
  }

  /** Nothing failing underneath, an add succeeds exactly so: a directory left behind only blocks
      one that is enabled by it. */
  lemma AddSucceedsIff(s: System, rec: Record, env: Env)
    requires Inv(s) && env.faults == {}
    ensures var k := K(rec.kind, rec.id);
      Step(s, Add(rec), env).ok <==>
        && s.rules.identityOk(rec) && !s.rules.builtin(k) && (forall l :: l in s.records ==> l.id != rec.id)
        && Sound(s, k, rec.config, env)
        && !(rec.enabled && rec.kind != Mcp && (rec.kind == Skill || rec.installedBy != Agent) && Live(k) in s.dirs)
  {
    SucceedsIffAccepted(s, Add(rec), env);
    hide Inv, Step;
  }

  /** An update checks the record as it will be, and always stages and validates what it is about. */
  lemma UpdateSucceedsIff(s: System, k: Key, patch: Patch, env: Env)
    requires Inv(s) && env.faults == {}
    ensures Step(s, Update(k, patch), env).ok <==>
      && k in s.records && s.rules.identityOk(s.records[k].Patched(patch))
      && Sound(s, k, s.records[k].config + patch.config, env)
  {
    SucceedsIffAccepted(s, Update(k, patch), env);
    hide Inv, Step;
  }

  lemma OthersSucceedIff(s: System, k: Key, env: Env)
    requires Inv(s) && env.faults == {}
    ensures Step(s, Enable(k), env).ok <==> k in s.records && Sound(s, k, s.records[k].config, env)
    ensures Step(s, Disable(k), env).ok <==> k in s.records
    ensures Step(s, Remove(k), env).ok <==> k in s.records && !s.rules.builtin(k)
  {
    SucceedsIffAccepted(s, Enable(k), env);
    SucceedsIffAccepted(s, Disable(k), env);
    SucceedsIffAccepted(s, Remove(k), env);
    hide Inv, Step;
  }
}
