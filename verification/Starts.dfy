/**
 What every start of the agent does before its first state (app/daemon.go, app/mender.go
 HandleBootstrapArtifact): it counts the record once more than initState does, and it
 names a device that provides nothing.
 */
module Starts {
  import opened Wrappers
  import opened StateData
  import opened Datastore
  import opened UpdateStates
  import opened Daemon

  /** The database accepts the transactions of a start. */
  predicate StartWorks(env: Env) {
    env.bootFault.NoFault? && env.providesRead && env.imageFault.NoFault? && env.unknownFault.NoFault?
  }

  function AfterLoad(r: Record): Record { r.(info := r.info.(storeCount := NextCount(r.info.storeCount, true))) }

  /** The same record but for its count, and the same history but for what a start may change. */
  predicate Recounted(d: Disk, d': Disk) {
    && d'.db.state.Some? == d.db.state.Some?
    && Recalled(d'.db) == (if Recalled(d.db).Some? then Some(AfterLoad(Recalled(d.db).value)) else None)
    && OldState(d'.db) == OldState(d.db)
    && (OldState(d.db) ==> d'.db.state == d.db.state && d'.db.uncommitted.Some?
                           && d'.db.uncommitted.value.info.id == d.db.state.value.info.id)
    && d'.history == d.history.(limitPending := d'.history.limitPending, bootName := d'.history.bootName)
    && d'.history.limitPending == (d.history.limitPending && !BelowLimit(d.db))
  }

  /** There is a record, and loading it does not find the count at its maximum. */
  predicate BelowLimit(db: Db) { Recalled(db).Some? && Recalled(db).value.info.storeCount < MAX_STORE_COUNT }

  lemma LoadRecounts(d: Disk, env: Env)
    requires env.bootFault.NoFault?
    ensures Recounted(d, CountedAtStart(d, env)) && CountedAtStart(d, env).db.artifact == d.db.artifact
    ensures LoadStateData(d.db, env.bootFault).1.Loaded? <==> BelowLimit(d.db)
  {
  }

  lemma BootstrapRecounts(d: Disk, env: Env)
    requires env.bootFault.NoFault?
    ensures Recounted(d, Bootstrap(d, env))
    ensures Initialized(d, env) ==> Bootstrap(d, env).db.artifact == d.db.artifact
  {
    hide CountedAtStart, LoadStateData, LoadProvides;
    LoadRecounts(d, env);
  }

  lemma NamedProvides(a: Artifact)
    requires a.name.Some?
    ensures LoadProvides(a) != map[]
  {
    assert "artifact_name" in LoadProvides(a);
  }

  /** The artifact data of a device that has been given a name, its group and its provides, and nothing else. */
  function Given(name: string, group: string, newProvides: Option<map<string, string>>): Artifact {
    Artifact(Some(name), if group == "" then None else Some(group),
             Some(if newProvides.Some? then Entries(newProvides.value) else Null))
  }

  /**
   Every start, whatever fails: a device that has a record below the limit, or provides
   something that can be read, keeps what it says about itself. Any other is given what
   the bootstrap Artifact says, whose list of provides to clear is not looked at, or else
   is called unknown, or keeps what it had if neither can be committed.
   */
  lemma BootstrapGivesExactly(d: Disk, env: Env)
    ensures var d' := Bootstrap(d, env);
            var usable := env.image.Some? && env.image.value.name != "" && env.imageFault == NoFault;
            d'.db.artifact ==
              if (BelowLimit(d.db) && env.bootFault == NoFault)
                 || (env.providesRead && LoadProvides(d.db.artifact) != map[]) then d.db.artifact
              else if usable then Given(env.image.value.name, env.image.value.group, env.image.value.newProvides)
              else if env.unknownFault == NoFault then Given("unknown", "", Some(map["artifact_name" := "unknown"]))
              else d.db.artifact
  {
    hide LoadProvides, Recalled;
    CountKeepsArtifact(d, env);
  }

  lemma CountKeepsArtifact(d: Disk, env: Env)
    ensures CountedAtStart(d, env).db.artifact == d.db.artifact
    ensures LoadStateData(d.db, env.bootFault).1.Loaded? <==> BelowLimit(d.db) && env.bootFault.NoFault?
  {
  }

  function GivenName(env: Env): string {
    if env.image.Some? && env.image.value.name != "" then env.image.value.name else "unknown"
  }

  /**
   A start gives the device a name exactly when it provides nothing and there is no
   record below the limit: that of a bootstrap Artifact, else "unknown".
   */
  lemma StartNamesExactly(d: Disk, env: Env)
    requires StartWorks(env)
    ensures var d' := Bootstrap(d, env);
            if BelowLimit(d.db) || LoadProvides(d.db.artifact) != map[] then d'.db.artifact == d.db.artifact
            else d.db.artifact.name.None? && d'.db.artifact.name == d'.history.bootName == Some(GivenName(env))
  {
    hide CountedAtStart, LoadStateData, LoadProvides;
    LoadRecounts(d, env);
    if d.db.artifact.name.Some? { NamedProvides(d.db.artifact); }
  }
}
