/**
 Where a restart takes a deployment up again, record by record, and the rule behind the
 choice for a half-stored Artifact: none of its own scripts may run, since nothing has
 checked them yet.
 */
module Resumption {
  import opened Wrappers
  import opened StateData
  import opened Datastore
  import opened UpdateStates
  import opened Daemon
  import opened Starts
  import opened Invariants
  import opened Outcomes
  import opened PointOfNoReturn
  import Recovery

  /** The count that initState finds, the bootstrap having counted once. */
  function CountAtInit(count: nat, env: Env): nat {
    if !env.bootFault.NoFault? then count else if count >= 30 then 1 else count + 1
  }

  /** The state in which a boot takes up a record of this name. */
  function TakenUp(name: StateId, info: UpdateInfo, env: Env): State {
    if name == IdUpdateFetch then Polling(if env.removeOk then Idle else Error(true))
    else if name == IdReportStatusError then Polling(Idle)
    else State(
      if name in {IdUpdateStore, IdUpdateAfterStore, IdUpdateCleanup} then Cleanup(false)
      else if name in {IdRollbackReboot, IdVerifyRollbackReboot, IdAfterRollbackReboot} then VerifyRollbackReboot
      else if name in {IdUpdateStatusReport, IdStatusReportRetry} then StatusReport(false, info.reportAttempts, 0)
      else if name == IdReboot then VerifyReboot
      else if name == IdUpdateAfterFirstCommit then AfterFirstCommit
      else if name == IdUpdateAfterCommit then AfterCommit
      else if name != IdUpdateError && info.supportsRollback.Supported? then Rollback
      else UpdateError, info)
  }

  /** The records from which a restart can only fall back, and marks the name if it cannot roll back. */
  predicate Abandoned(name: StateId) {
    name !in {IdUpdateFetch, IdReportStatusError, IdUpdateStore, IdUpdateAfterStore, IdUpdateCleanup,
              IdRollbackReboot, IdVerifyRollbackReboot, IdAfterRollbackReboot, IdUpdateStatusReport,
              IdStatusReportRetry, IdReboot, IdUpdateAfterFirstCommit, IdUpdateAfterCommit, IdUpdateError}
  }

  lemma ResumeTakesUp(r: Record, d: Disk, env: Env)
    ensures var (d', next) := Resume(r, d, env);
            && next == TakenUp(r.name, r.info, env)
            && d'.history == d.history
            && (r.name == IdUpdateFetch && env.removeOk ==> d' == RemoveRecord(d, true))
            && (d'.db.artifact.name == if Abandoned(r.name) && !r.info.supportsRollback.Supported? && env.flagOk
                                       then Some(r.info.artifactName + "_") else d.db.artifact.name)
  {
  }

  /** The counters that a start begins with: none of the attempts and pauses before it. */
  const NOTHING_SPENT := Volatile(0, 0, 0, {}, 0)

  /** The first step after any power loss. */
  lemma StartLeadsTo(cfg: Config, d: Disk, env: Env)
    ensures var m := Next(cfg, Boot(d), Go(env));
            var r := Recalled(d.db);
            m.cur == Polling(Init) &&
            if d.db.state.None? && !env.loadFault.Refused? then m.to == Polling(Idle)
            else if env.loadFault.Refused? || r.None? then m.to == State(UpdateError, UNKNOWN_UPDATE)
            else
              var count := CountAtInit(r.value.info.storeCount, env);
              var info := r.value.info.(storeCount := if count >= 30 then 1 else count + 1);
              var name := Bootstrap(d, env).db.artifact.name;
              if count >= 30 then
                && m.to == State(StatusReport(false, 0, 0), info) && m.vol == NOTHING_SPENT
                && m.disk.db.artifact.name == if env.flagOk then Some(info.artifactName + "_") else name
              else if env.loadFault.Lost? then m.to == State(UpdateError, UNKNOWN_UPDATE)
              else if !env.restored then m.to == State(StatusReport(false, 0, 0), info)
              else
                && m.to == TakenUp(r.value.name, info, env)
                && m.vol == NOTHING_SPENT.(installers := |info.payloadTypes|, failedReports := d.history.failedReports)
                && m.disk.db.artifact.name ==
                     (if Abandoned(r.value.name) && !info.supportsRollback.Supported? && env.flagOk
                      then Some(info.artifactName + "_") else name)
  {
    hide Resume, LoadStateData, CountedAtStart, Bootstrap, LoadProvides, Recalled, TakenUp, Abandoned;
    CountedRecord(d, env);
    var d1 := Bootstrap(d, env);
    LoadedRecord(d1, env);
    var (db, loaded) := LoadStateData(d1.db, env.loadFault);
    if loaded.Loaded? { ResumeTakesUp(loaded.record, NoteResume(LimitSettled(d1.(db := db)), loaded.record), env); }
    FirstStep(cfg, d, env);
  }

  lemma FirstStep(cfg: Config, d: Disk, env: Env)
    ensures var o := HandleInit(Polling(Init), Bootstrap(d, env), Boot(d).vol, env);
            Next(cfg, Boot(d), Go(env)) == Machine(o.cur, o.next, o.disk, o.vol)
  {
    hide HandleInit, Bootstrap, HandleError;
  }

  lemma CountedRecord(d: Disk, env: Env)
    ensures Bootstrap(d, env).history.failedReports == d.history.failedReports
    ensures var (r, r') := (Recalled(d.db), Recalled(Bootstrap(d, env).db));
            && (Bootstrap(d, env).db.state.None? <==> d.db.state.None?)
            && r' == if r.None? then None
                     else Some(r.value.(info := r.value.info.(storeCount := CountAtInit(r.value.info.storeCount, env))))
  {
    hide LoadProvides;
    if env.bootFault.NoFault? {
      hide CountedAtStart, Bootstrap;
      BootstrapRecounts(d, env);
    }
  }

  lemma LoadedRecord(d: Disk, env: Env)
    ensures LoadStateData(d.db, env.loadFault).0.artifact == d.db.artifact
    ensures var (db, loaded) := LoadStateData(d.db, env.loadFault);
            var r := Recalled(d.db);
            if env.loadFault.Refused? then loaded.LoadFailed?
            else if d.db.state.None? then loaded.NotFound?
            else if r.None? then loaded.LoadFailed?
            else
              var count := r.value.info.storeCount;
              var counted := r.value.(info := r.value.info.(storeCount := if count >= 30 then 1 else count + 1));
              loaded == if count >= 30 then LoadExceeded(counted)
                        else if env.loadFault.Lost? then LoadFailed else Loaded(counted)
  {
  }

  /** The count on record, whichever key holds it. */
  function CountOnRecord(d: Disk): nat { if Recalled(d.db).Some? then Recalled(d.db).value.info.storeCount else 0 }

  /** A power loss during a start finds the record counted not at all, once or twice; the maximum starts over. */
  lemma StartCounts(cfg: Config, d: Disk, env: Env)
    requires d.db.state.Some? && Recalled(d.db).Some? && env.bootFault == NoFault && env.loadFault == NoFault
    ensures var once := if CountOnRecord(d) >= 30 then 1 else CountOnRecord(d) + 1;
            && Next(cfg, Boot(d), PowerLoss(env, 0)) == Boot(d)
            && CountOnRecord(Next(cfg, Boot(d), PowerLoss(env, 1)).disk) == once
            && CountOnRecord(Next(cfg, Boot(d), PowerLoss(env, 2)).disk) == once
            && CountOnRecord(Next(cfg, Boot(d), PowerLoss(env, 3)).disk) == if once >= 30 then 1 else once + 1
  {
    hide LoadStateData, CountedAtStart, Bootstrap, LoadProvides, Recalled, HandleInit;
    LoadRecounts(d, env);
    BootstrapRecounts(d, env);
    InitCut(Bootstrap(d, env), env);
    StartCutsAre(cfg, d, env);
  }

  lemma InitCut(d: Disk, env: Env)
    requires d.db.state.Some? && Recalled(d.db).Some? && env.loadFault == NoFault
    ensures var o := HandleInit(Polling(Init), d, Boot(d).vol, env);
            && |o.cuts| == 1
            && CountOnRecord(o.cuts[0]) == if CountOnRecord(d) >= 30 then 1 else CountOnRecord(d) + 1
  {
    hide Resume;
  }

  lemma StartCutsAre(cfg: Config, d: Disk, env: Env)
    ensures Cuts(cfg, Boot(d), env)
            == [d, CountedAtStart(d, env), Bootstrap(d, env)]
               + HandleInit(Polling(Init), Bootstrap(d, env), Boot(d).vol, env).cuts
  {
    hide HandleInit, Bootstrap, HandleError, CountedAtStart;
  }

  // --------------------------------------------- scripts nobody has checked yet

  /** The states whose scripts come out of the Artifact itself. */
  predicate RunsArtifactScripts(k: Kind) {
    match k.Transition()
    case ToNone | ToIdle | ToSync | ToError | ToDownloadEnter | ToDownloadLeave => false
    case _ => true
  }

  /** The states in which a half-stored Artifact is put away and reported. */
  predicate PutAway(k: Kind) {
    match k
    case Init | Idle | CheckWait | Error(_) => true
    case Cleanup(success) => !success
    case StatusReport(success, _, _) => !success
    case StatusReportRetry(success, _, _, _) => !success
    case _ => false
  }

  predicate PutAwayRecord(name: StateId) {
    name in {IdUpdateStore, IdUpdateAfterStore, IdUpdateCleanup, IdUpdateStatusReport, IdStatusReportRetry}
  }

  predicate PutAwayDisk(d: Disk) {
    d.db.state.Some? ==> Recalled(d.db).Some? && PutAwayRecord(Recalled(d.db).value.name)
  }

  predicate Withdrawn(m: Machine) { PutAwayDisk(m.disk) && PutAway(m.cur.kind) && PutAway(m.to.kind) }

  predicate WithdrawnOutcome(o: Outcome) {
    PutAwayDisk(o.disk) && PutAway(o.cur.kind) && (PutAway(o.next.kind) || o.next.kind.UpdateCheck?)
    && forall i :: 0 <= i < |o.cuts| ==> PutAwayDisk(o.cuts[i])
  }

  lemma LoadPutsAway(d: Disk)
    requires PutAwayDisk(d)
    ensures var (db, loaded) := LoadStateData(d.db, NoFault);
            && !loaded.LoadFailed? && PutAwayDisk(d.(db := db))
            && (loaded.Loaded? || loaded.LoadExceeded? ==> PutAwayRecord(loaded.record.name))
  {
    LoadKeepsName(d.db);
  }

  lemma SameDbPutAway(d: Disk, d': Disk)
    requires PutAwayDisk(d) && d'.db.state == d.db.state && d'.db.uncommitted == d.db.uncommitted
    ensures PutAwayDisk(d')
  {
  }

  lemma InitPutsAway(s: State, d: Disk, vol: Volatile, env: Env)
    requires StoreWorks(env) && s.kind.Init? && PutAwayDisk(d)
    ensures WithdrawnOutcome(HandleInit(s, d, vol, env))
  {
    hide LoadStateData, Resume, PutAwayDisk, Abandoned;
    LoadPutsAway(d);
    var (db, loaded) := LoadStateData(d.db, NoFault);
    if loaded.Loaded? {
      var d1 := NoteResume(LimitSettled(d.(db := db)), loaded.record);
      SameDbPutAway(d.(db := db), LimitSettled(d.(db := db)));
      SameDbPutAway(d.(db := db), d1);
      ResumePutsAway(loaded.record, d1, env);
    } else if loaded.LoadExceeded? {
      var d1 := LimitFires(d.(db := db));
      SameDbPutAway(d.(db := db), d1);
      SameDbPutAway(d1, SetBroken(d1, loaded.record.info, env.flagOk));
    }
  }

  lemma ResumePutsAway(r: Record, d: Disk, env: Env)
    requires PutAwayDisk(d) && PutAwayRecord(r.name)
    ensures var (d', next) := Resume(r, d, env); PutAwayDisk(d') && PutAway(next.kind)
  {
    hide PutAwayDisk;
  }

  lemma HandlerPutsAway(cfg: Config, s: State, d: Disk, vol: Volatile, env: Env)
    requires StoreWorks(env) && PutAway(s.kind) && PutAwayDisk(d)
    ensures WithdrawnOutcome(Handle(cfg, s, d, vol, env))
  {
    hide HandleInit, HandleForward, HandleGate, Recalled;
    if s.kind.Init? { InitPutsAway(s, d, vol, env); }
  }

  lemma WritePutsAway(m: Machine, env: Env)
    requires StoreWorks(env) && Inv(m) && PutAway(m.to.kind) && m.to.kind.IsUpdateState()
    ensures PutAwayDisk(StoreNewState(m, env).0) && !StoreNewState(m, env).1.StoreFailed?
  {
    hide Inv, Recalled;
    Recovery.StoreNamesNewState(m, env);
  }

  /** Where the agent only puts an Artifact away, the scripts named Error are all that could stop it. */
  lemma ScriptsPutAway(from: Kind, to: Kind, env: Env)
    requires env.errorScripts && PutAway(from) && PutAway(to)
    ensures LeavePasses(from, to, env) && EnterPasses(from, to, env)
  {
  }

  lemma EnterPutsAway(cfg: Config, m: Machine, env: Env)
    requires StoreWorks(env) && env.errorScripts && Inv(m) && Withdrawn(m)
    ensures WithdrawnOutcome(EnterState(cfg, m, env))
  {
    hide Handle, HandleError, Inv, StoreNewState, PutAwayDisk;
    ScriptsPutAway(m.cur.kind, m.to.kind, env);
    if m.to.kind.IsUpdateState() {
      WritePutsAway(m, env);
      var (d, r) := StoreNewState(m, env);
      if r.Stored? { HandlerPutsAway(cfg, m.to, d, m.vol, env); } else { LimitPutsAway(m, d, env); }
    } else {
      HandlerPutsAway(cfg, m.to, m.disk, m.vol, env);
    }
  }

  lemma LimitPutsAway(m: Machine, d: Disk, env: Env)
    requires PutAwayDisk(d)
    ensures var (d1, next) := HandleError(m.to, d, true, env);
            var (d2, next2) := AfterStoreError(d1, next, m.to.info, CountExceeded, env.flagOk);
            PutAwayDisk(d1) && PutAwayDisk(d2) && next2.kind == StatusReport(false, 0, 0)
  {
    ErrorKeepsFacts(m.to, d, true, env);
  }

  lemma StepPutsAway(cfg: Config, m: Machine, env: Env)
    requires StoreWorks(env) && env.errorScripts && Inv(m) && Withdrawn(m)
    ensures WithdrawnOutcome(TransitionState(cfg, m, env))
  {
    hide EnterState, Inv, HandleError, PutAwayDisk;
    ScriptsPutAway(m.cur.kind, m.to.kind, env);
    LeftKeepsInv(m);
    SameDbPutAway(m.disk, Left(m).disk);
    EnterPutsAway(cfg, Left(m), env);
  }

  lemma StartPutsAway(m: Machine, env: Env)
    requires StoreWorks(env) && Withdrawn(m)
    ensures Withdrawn(Started(m, env)) && forall i :: 0 <= i < |StartCuts(m, env)| ==> PutAwayDisk(StartCuts(m, env)[i])
  {
    hide Recalled, CountedAtStart, Bootstrap, BelowLimit;
    LoadRecounts(m.disk, env);
    BootstrapRecounts(m.disk, env);
  }

  lemma NextPutsAway(cfg: Config, m: Machine, c: Choice)
    requires Benign(c) && Inv(m) && Withdrawn(m)
    ensures Withdrawn(Next(cfg, m, c)) || Next(cfg, m, c).to.kind.UpdateCheck?
    ensures PutAway(Next(cfg, m, c).cur.kind)
  {
    hide TransitionState, Inv, Started, StartCuts, PutAwayDisk;
    StartPutsAway(m, c.env);
    StartedKeepsInv(m, c.env);
    StepPutsAway(cfg, Started(m, c.env), c.env);
  }

  /** The agent does not ask the server for a deployment in this run. */
  predicate BeforeNextCheck(cfg: Config, m: Machine, choices: seq<Choice>)
    decreases |choices|
  {
    !m.to.kind.UpdateCheck? && (choices == [] || BeforeNextCheck(cfg, Next(cfg, m, choices[0]), choices[1..]))
  }

  lemma {:induction false} RunPutsAway(cfg: Config, m: Machine, choices: seq<Choice>)
    requires Inv(m) && Withdrawn(m) && BeforeNextCheck(cfg, m, choices) && forall c :: c in choices ==> Benign(c)
    ensures Withdrawn(RunAll(cfg, m, choices))
    decreases |choices|
  {
    hide Next, Inv, Withdrawn;
    if choices != [] {
      assert Benign(choices[0]);
      NextKeepsInv(cfg, m, choices[0]);
      NextPutsAway(cfg, m, choices[0]);
      RunPutsAway(cfg, Next(cfg, m, choices[0]), choices[1..]);
    }
  }

  /**
   Power was lost while payloads were being stored, or right after: whatever happens from
   that boot on, more power losses included, no state whose scripts come from the Artifact
   is entered before the agent asks the server for the next deployment.
   */
  lemma UncheckedScriptsNeverRun(cfg: Config, d: Disk, choices: seq<Choice>)
    requires Inv(Boot(d)) && Recalled(d.db).Some?
    requires Recalled(d.db).value.name in {IdUpdateStore, IdUpdateAfterStore}
    requires BeforeNextCheck(cfg, Boot(d), choices) && forall c :: c in choices ==> Benign(c)
    ensures var m := RunAll(cfg, Boot(d), choices);
            !RunsArtifactScripts(m.cur.kind) && !RunsArtifactScripts(m.to.kind)
  {
    RunPutsAway(cfg, Boot(d), choices);
  }

  /**
   With no assumption on database or scripts, one step breaks this exactly when a Cleanup
   or a report cannot be stored, or an Error script fails at a Cleanup.
   */
  lemma UncheckedScriptsRunExactly(cfg: Config, m: Machine, env: Env)
    requires PutAway(m.cur.kind) && PutAway(m.to.kind) && !m.to.kind.Init? && !Exited(m)
    ensures
      var stored := if m.to.kind.IsUpdateState() then StoreNewState(Left(m), env).1 else Stored;
      RunsArtifactScripts(Next(cfg, m, Go(env)).to.kind) <==>
        if !LeavePasses(m.cur.kind, m.to.kind, env) then m.cur.kind.Cleanup?
        else
          && CleanupOrReport(m.to.kind)
          && (stored.StoreFailed?
              || (stored.Stored? && m.to.kind.Cleanup? && !env.errorScripts && ShouldTransit(m.cur.kind, m.to.kind)))
  {
    hide StoreNewState;
    if LeavePasses(m.cur.kind, m.to.kind, env) { EnterRunsExactly(cfg, Left(m), env); }
  }

  lemma EnterRunsExactly(cfg: Config, m: Machine, env: Env)
    requires PutAway(m.cur.kind) && PutAway(m.to.kind) && !m.to.kind.Init?
    ensures
      var stored := if m.to.kind.IsUpdateState() then StoreNewState(m, env).1 else Stored;
      RunsArtifactScripts(EnterState(cfg, m, env).next.kind) <==>
          && CleanupOrReport(m.to.kind)
          && (stored.StoreFailed?
              || (stored.Stored? && m.to.kind.Cleanup? && !env.errorScripts && ShouldTransit(m.cur.kind, m.to.kind)))
  {
    hide StoreNewState, Handle;
    forall d: Disk { PutAwayGoesOn(cfg, m.to, d, m.vol, env); }
  }

  lemma PutAwayGoesOn(cfg: Config, s: State, d: Disk, vol: Volatile, env: Env)
    requires PutAway(s.kind) && !s.kind.Init?
    ensures !RunsArtifactScripts(Handle(cfg, s, d, vol, env).next.kind)
  {
  }
}
