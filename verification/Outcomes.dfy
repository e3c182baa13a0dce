/**
 What the server and the next boot may conclude: when success can be reported, what
 the stored artifact name stands for, and where a deployment can no longer go.
 */
module Outcomes {
  import opened Wrappers
  import opened StateData
  import opened Datastore
  import opened UpdateStates
  import opened Daemon
  import opened Invariants
  import opened Starts

  /** A device whose database holds no deployment that has passed its commit. */
  predicate StartsClean(d: Disk) {
    && d.history.facts == {} && d.history.oldName == d.db.artifact.name && d.history.bootName.None?
    && (d.db.state.Some? ==>
          && Recalled(d.db).Some?
          && Recalled(d.db).value.info.artifactName == d.history.newName
          && !PastCommitId(Recalled(d.db).value.name))
  }

  lemma CleanStartHasInv(d: Disk)
    requires StartsClean(d)
    ensures Inv(Boot(d))
  {
  }

  predicate SendsSuccess(m: Machine) { m.to.kind.StatusReport? && m.to.kind.success }

  /**
   Over every run with power losses at any point: when the agent is about to report
   success, every payload's CommitUpdate, the ArtifactCommit_Leave scripts and every
   Cleanup have succeeded.
   */
  lemma {:induction false} SuccessIsEarned(cfg: Config, d: Disk, choices: seq<Choice>)
    requires StartsClean(d) && forall c :: c in choices ==> Works(c)
    ensures var m := RunAll(cfg, Boot(d), choices);
            SendsSuccess(m) ==>
              m.to.info.artifactName == m.disk.history.newName && Earned(m.to.info, m.disk.history.facts)
  {
    CleanStartHasInv(d);
    RunKeepsInv(cfg, Boot(d), choices);
  }

  /**
   The name stored at that moment is the clean new one exactly when no boot resumed
   the deployment past its commit with the broken name already stored.
   */
  lemma SuccessNameExactly(cfg: Config, d: Disk, choices: seq<Choice>)
    requires StartsClean(d) && forall c :: c in choices ==> Works(c)
    ensures var m := RunAll(cfg, Boot(d), choices);
            SendsSuccess(m) ==>
              (m.disk.db.artifact.name == Some(m.disk.history.newName) <==> ResumedFlagged !in m.disk.history.facts)
  {
    CleanStartHasInv(d);
    RunKeepsInv(cfg, Boot(d), choices);
    var h := RunAll(cfg, Boot(d), choices).disk.history;
    assert |h.newName + BROKEN_SUFFIX| > |h.newName|;
  }

  /**
   When a start of the daemon resumes such a deployment. The record is loaded twice: from
   the maximum the count starts over unnoticed, and only from one below it the limit fires.
   */
  lemma ResumedFlaggedExactly(cfg: Config, m: Machine, env: Env)
    requires Inv(m) && StoreWorks(env) && ResumedFlagged !in m.disk.history.facts
    requires m.cur.kind.Init? && m.to.kind.Init?
    ensures ResumedFlagged in Next(cfg, m, Go(env)).disk.history.facts <==>
            (var r := Recalled(m.disk.db);
             && r.Some? && (r.value.info.storeCount < MAX_STORE_COUNT - 1 || r.value.info.storeCount >= MAX_STORE_COUNT)
             && env.restored
             && PastCommitId(r.value.name) && m.disk.db.artifact.name == BrokenName(r.value.info))
  {
    hide Bootstrap, LoadProvides, KindInv, InfoInv, NameInv;
    BootstrapRecounts(m.disk, env);
    if m.disk.db.artifact.name.Some? { NamedProvides(m.disk.db.artifact); }
    LoadedFlagged(cfg, Started(m, env), env);
  }

  /** The second load, by initState. */
  lemma LoadedFlagged(cfg: Config, m: Machine, env: Env)
    requires StoreWorks(env) && ResumedFlagged !in m.disk.history.facts && m.cur.kind.Init? && m.to.kind.Init?
    requires m.disk.db.state.Some? ==> Recalled(m.disk.db).Some?
    ensures ResumedFlagged in TransitionState(cfg, m, env).disk.history.facts <==>
            BelowLimit(m.disk.db) && env.restored && PastCommitId(Recalled(m.disk.db).value.name)
            && m.disk.db.artifact.name == BrokenName(Recalled(m.disk.db).value.info)
  {
  }

  /**
   In every run the stored name is the old one, the new one, the new one with the broken
   suffix, or, on a device that provided nothing before the deployment, one that a start
   gave it; and it is the clean new one only after payload 0 was committed, or there was
   none, unless that was its name all along.
   */
  lemma {:induction false} StoredName(cfg: Config, d: Disk, choices: seq<Choice>)
    requires StartsClean(d) && forall c :: c in choices ==> Works(c)
    ensures var m := RunAll(cfg, Boot(d), choices);
            && NameInv(m.disk.db.artifact.name, m.disk.history)
            && (m.disk.history.bootName.Some? ==> m.disk.history.oldName.None?)
            && (m.disk.db.artifact.name == Some(m.disk.history.newName) != m.disk.history.oldName
                && m.disk.db.artifact.name != m.disk.history.bootName ==>
                  AnyCommit(m.disk.history.facts))
  {
    CleanStartHasInv(d);
    RunKeepsInv(cfg, Boot(d), choices);
    var h := RunAll(cfg, Boot(d), choices).disk.history;
    assert |h.newName + BROKEN_SUFFIX| > |h.newName|;
  }

  // ------------------------------------------------- the flagged success, shown

  /** An environment in which everything asked of it succeeds. */
  function Calm(): Env {
    Env(true, true, true, NoFault, NoFault, NoFault, true, true, NoFault,
        true, Landed, Landed, Landed, NoOffer, true,
        None, true, true, None, None, None, true, [], [], [], true, true,
        false, Refreshed, Continue, false, false,
        NoFault, true, None, NoFault, NoFault)
  }

  /** A disk that says: all payloads committed (there are none), store count below n. */
  predicate RecordsAfterCommit(d: Disk, info: UpdateInfo, n: nat) {
    && d.db.state.Some? && !OldState(d.db) && Recalled(d.db).Some?
    && d.db.state.value.name.IdUpdateAfterCommit? && d.db.state.value.info.storeCount < n
    && d.db.state.value.info.payloadTypes == [] && d.db.state.value.info.artifactName == info.artifactName
  }

  lemma LeaveScriptsFail(cfg: Config, m: Machine)
    requires m.cur.kind.AfterCommit? && m.to.kind == Cleanup(true)
    ensures var m' := Next(cfg, m, Go(Calm().(leave := false)));
            m'.to.kind == Cleanup(false) && m'.disk == SetBroken(m.disk, m.cur.info, true)
  {
    hide EnterState;
  }

  lemma BootResumesAfterCommit(cfg: Config, d: Disk, info: UpdateInfo)
    requires RecordsAfterCommit(d, info, 25)
    ensures var m' := Next(cfg, Boot(d), Go(Calm()));
            && m'.cur.kind.Init? && m'.to.kind.AfterCommit? && m'.vol.installers == 0
            && m'.to.info.artifactName == info.artifactName && !m'.to.info.schemaUpdate
            && m'.disk.db.artifact == d.db.artifact && m'.disk.history.newName == d.history.newName
            && RecordsAfterCommit(m'.disk, info, 27)
  {
  }

  lemma AfterCommitGoesOn(cfg: Config, m: Machine, info: UpdateInfo)
    requires m.cur.kind.Init? && m.to.kind.AfterCommit? && m.vol.installers == 0 && !m.to.info.schemaUpdate
    requires RecordsAfterCommit(m.disk, info, 27)
    ensures var m' := Next(cfg, m, Go(Calm()));
            && m'.cur.kind.AfterCommit? && m'.to == State(Cleanup(true), m.to.info) && m'.vol.installers == 0
            && m'.disk.db.artifact == m.disk.db.artifact && m'.disk.history.newName == m.disk.history.newName
            && m'.disk.db.state.Some? && m'.disk.db.state.value.info.storeCount < 28
  {
  }

  lemma CleanupSucceeds(cfg: Config, m: Machine)
    requires m.cur.kind.AfterCommit? && m.to.kind == Cleanup(true) && m.vol.installers == 0
    requires !m.to.info.schemaUpdate && m.disk.db.state.Some? && m.disk.db.state.value.info.storeCount < 28
    ensures var m' := Next(cfg, m, Go(Calm()));
            SendsSuccess(m') && m'.disk.db.artifact == m.disk.db.artifact
            && m'.disk.history.newName == m.disk.history.newName
  {
  }

  /** The leave scripts fail, power is lost, and from the next boot on everything succeeds. */
  const FLAG_THEN_RESUME: seq<Choice> :=
    [Go(Calm().(leave := false)), PowerLoss(Calm(), 0), Go(Calm()), Go(Calm()), Go(Calm())]

  /**
   Success can be reported under the broken name: every deployment without payloads
   that is ready for its final Cleanup gets there when its ArtifactCommit_Leave scripts
   fail once and the power goes before the failure is stored.
   */
  lemma FlaggedSuccess(cfg: Config, m: Machine)
    requires Inv(m) && m.to.kind == Cleanup(true) && RecordsAfterCommit(m.disk, m.to.info, 25)
    ensures var m' := RunAll(cfg, m, FLAG_THEN_RESUME);
            SendsSuccess(m') && m'.disk.db.artifact.name == BrokenName(m.to.info) != Some(m'.disk.history.newName)
  {
    hide Next, Calm;
    var info := m.to.info;
    LeaveScriptsFail(cfg, m);
    var m1 := Next(cfg, m, Go(Calm().(leave := false)));
    BootsFromHere(cfg, m1);
    var m2 := Boot(m1.disk);
    BootResumesAfterCommit(cfg, m1.disk, info);
    var m3 := Next(cfg, m2, Go(Calm()));
    AfterCommitGoesOn(cfg, m3, info);
    var m4 := Next(cfg, m3, Go(Calm()));
    CleanupSucceeds(cfg, m4);
    RunFive(cfg, m, FLAG_THEN_RESUME);
    assert |m.disk.history.newName + BROKEN_SUFFIX| > |m.disk.history.newName|;
  }

  lemma BootsFromHere(cfg: Config, m: Machine)
    ensures Next(cfg, m, PowerLoss(Calm(), 0)) == Boot(m.disk)
  {
    hide TransitionState;
  }

  lemma RunFive(cfg: Config, m: Machine, c: seq<Choice>)
    requires |c| == 5
    ensures RunAll(cfg, m, c) == Next(cfg, Next(cfg, Next(cfg, Next(cfg, Next(cfg, m, c[0]), c[1]), c[2]), c[3]), c[4])
  {
    hide Next;
    var m1 := Next(cfg, m, c[0]);
    var m2 := Next(cfg, m1, c[1]);
    var m3 := Next(cfg, m2, c[2]);
    var m4 := Next(cfg, m3, c[3]);
    assert RunAll(cfg, m, c) == RunAll(cfg, m1, c[1..]);
    assert RunAll(cfg, m1, c[1..]) == RunAll(cfg, m2, c[2..]) by { assert c[1..][1..] == c[2..]; }
    assert RunAll(cfg, m2, c[2..]) == RunAll(cfg, m3, c[3..]) by { assert c[2..][1..] == c[3..]; }
    assert RunAll(cfg, m3, c[3..]) == RunAll(cfg, m4, c[4..]) by { assert c[3..][1..] == c[4..]; }
    assert RunAll(cfg, m4, c[4..]) == RunAll(cfg, Next(cfg, m4, c[4]), []) by { assert c[4..][1..] == []; }
  }
}
