/**
 Once AfterFirstCommit has been stored the deployment is never rolled back: not by a
 later error, not by the loop limit, not by a restart. Two things can break this, a
 failing database write and a failing script of the pseudo-state "Error".
 */
module PointOfNoReturn {
  import opened Wrappers
  import opened StateData
  import opened Datastore
  import opened UpdateStates
  import opened Daemon
  import opened Invariants
  import opened Starts
  import opened Outcomes
  import Recovery

  predicate Benign(c: Choice) { StoreWorks(c.env) && c.env.errorScripts }

  /** The states a deployment visits after its first commit. */
  predicate SafeKind(k: Kind) {
    match k
    case AfterFirstCommit | AfterCommit | Cleanup(_) | StatusReport(_, _, _) | StatusReportRetry(_, _, _, _) => true
    case Init | Idle | CheckWait | UpdateCheck | Error(_) => true
    case _ => false
  }

  predicate SafeId(name: StateId) {
    match name
    case IdUpdateAfterFirstCommit | IdUpdateAfterCommit => true
    case IdUpdateCleanup | IdUpdateStatusReport | IdStatusReportRetry => true
    case _ => false
  }

  predicate SafeDisk(d: Disk) {
    PastFirstCommit in d.history.facts ==>
      (d.db.state.Some? ==> Recalled(d.db).Some? && SafeId(Recalled(d.db).value.name))
  }

  predicate Safe(m: Machine) {
    SafeDisk(m.disk) && (PastFirstCommit in m.disk.history.facts ==> SafeKind(m.cur.kind) && SafeKind(m.to.kind))
  }

  predicate SafeOutcome(o: Outcome) {
    Safe(Machine(o.cur, o.next, o.disk, o.vol)) && forall i :: 0 <= i < |o.cuts| ==> SafeDisk(o.cuts[i])
  }

  /** A handler that runs before the first commit records nothing past it. */
  predicate Before(o: Outcome) {
    PastFirstCommit !in o.disk.history.facts
    && forall i :: 0 <= i < |o.cuts| ==> PastFirstCommit !in o.cuts[i].history.facts
  }

  lemma BeforeIsSafe(o: Outcome)
    requires Before(o)
    ensures SafeOutcome(o)
  {
  }

  // -------------------------------------------- before the first commit is stored

  lemma ErrorKeepsFacts(s: State, d: Disk, fatal: bool, env: Env)
    ensures HandleError(s, d, fatal, env).0.history == d.history
    ensures HandleError(s, d, fatal, env).0.db.state == d.db.state
    ensures HandleError(s, d, fatal, env).0.db.uncommitted == d.db.uncommitted
  {
  }

  lemma ForwardStaysBefore(cfg: Config, s: State, d: Disk, vol: Volatile, env: Env)
    requires !s.kind.IsPolling() && !s.kind.IsGate() && !s.kind.IsEnding()
    requires PastFirstCommit !in d.history.facts
    ensures Before(HandleForward(cfg, s, d, vol, env))
  {
    match s.kind
    case Store => StoreStaysBefore(s, d, vol, env);
    case Install => InstallStaysBefore(s, d, vol, env);
    case Commit(_) => CommitStaysBefore(cfg, s, d, vol, env);
    case _ => OthersStayBefore(cfg, s, d, vol, env);
  }

  lemma StoreStaysBefore(s: State, d: Disk, vol: Volatile, env: Env)
    requires PastFirstCommit !in d.history.facts
    ensures Before(HandleStore(s, d, vol, env))
  {
  }

  lemma InstallStaysBefore(s: State, d: Disk, vol: Volatile, env: Env)
    requires PastFirstCommit !in d.history.facts
    ensures Before(HandleInstall(s, d, vol, env))
  {
    hide HandleError, WantsReboot, CollectReboots;
    forall s: State, d: Disk, f: bool ensures HandleError(s, d, f, env).0.history == d.history {
      ErrorKeepsFacts(s, d, f, env);
    }
  }

  lemma CommitStaysBefore(cfg: Config, s: State, d: Disk, vol: Volatile, env: Env)
    requires s.kind.Commit? && PastFirstCommit !in d.history.facts
    ensures Before(HandleCommit(cfg, s, d, vol, env))
  {
    hide HandleError, WriteRecord, CommitArtifactData, CountFor;
    forall s: State, d: Disk, f: bool ensures HandleError(s, d, f, env).0.history == d.history {
      ErrorKeepsFacts(s, d, f, env);
    }
  }

  lemma OthersStayBefore(cfg: Config, s: State, d: Disk, vol: Volatile, env: Env)
    requires !s.kind.IsPolling() && !s.kind.IsGate() && !s.kind.IsEnding()
    requires !s.kind.Store? && !s.kind.Install? && !s.kind.Commit? && PastFirstCommit !in d.history.facts
    ensures Before(HandleForward(cfg, s, d, vol, env))
  {
    hide HandleError, HandleStore, HandleInstall, HandleCommit;
    forall s: State, d: Disk, f: bool ensures HandleError(s, d, f, env).0.history == d.history {
      ErrorKeepsFacts(s, d, f, env);
    }
  }

  lemma RestStaysBefore(cfg: Config, s: State, d: Disk, vol: Volatile, env: Env)
    requires s.kind.IsGate() || s.kind.IsEnding() || (s.kind.IsPolling() && !s.kind.Init?)
    requires PastFirstCommit !in d.history.facts
    ensures Before(Handle(cfg, s, d, vol, env))
  {
    hide HandleError, HandleForward;
    forall s: State, d: Disk, f: bool ensures HandleError(s, d, f, env).0.history == d.history {
      ErrorKeepsFacts(s, d, f, env);
    }
  }

  // --------------------------------------------- after the first commit is stored

  predicate AfterStored(s: State, d: Disk) {
    PastFirstCommit in d.history.facts && SafeDisk(d) && SafeKind(s.kind)
  }

  lemma LoadKeepsName(db: Db)
    requires db.state.Some? ==> Recalled(db).Some?
    ensures var (db', loaded) := LoadStateData(db, NoFault);
            && (db.state.None? ==> loaded.NotFound?)
            && (db.state.Some? ==>
                  && (loaded.Loaded? || loaded.LoadExceeded?) && loaded.record.name == Recalled(db).value.name
                  && db'.state.Some? && Recalled(db') == Some(loaded.record))
  {
  }

  lemma ResumeIsSafe(r: Record, d: Disk, env: Env)
    requires env.removeOk && (PastFirstCommit in d.history.facts ==> SafeId(r.name))
    requires d.db.state.Some? ==> Recalled(d.db) == Some(r)
    ensures var (d', next) := Resume(r, d, env);
            SafeDisk(d') && d'.history == d.history && (PastFirstCommit in d.history.facts ==> SafeKind(next.kind))
  {
  }

  lemma InitIsSafe(s: State, d: Disk, vol: Volatile, env: Env)
    requires StoreWorks(env) && s.kind.Init? && SafeDisk(d)
    ensures SafeOutcome(HandleInit(s, d, vol, env))
  {
    hide LoadStateData, Resume, Recalled;
    if PastFirstCommit in d.history.facts {
      LoadKeepsName(d.db);
      var (db, loaded) := LoadStateData(d.db, env.loadFault);
      if loaded.Loaded? && env.restored {
        ResumeIsSafe(loaded.record, NoteResume(LimitSettled(d.(db := db)), loaded.record), env);
      } else if loaded.LoadExceeded? {
        FlagIsSafe(LimitFires(d.(db := db)), loaded.record.info);
      }
    } else {
      InitStaysBefore(s, d, vol, env);
    }
  }

  lemma FlagIsSafe(d: Disk, info: UpdateInfo)
    requires SafeDisk(d)
    ensures SafeDisk(SetBroken(d, info, true))
  {
  }

  lemma InitStaysBefore(s: State, d: Disk, vol: Volatile, env: Env)
    requires PastFirstCommit !in d.history.facts
    ensures SafeOutcome(HandleInit(s, d, vol, env))
  {
    hide LoadStateData, HandleError;
    assert Before(HandleInit(s, d, vol, env));
  }

  lemma EndIsSafe(cfg: Config, s: State, d: Disk, vol: Volatile, env: Env)
    requires StoreWorks(env) && AfterStored(s, d) && s.kind.IsEnding()
    ensures SafeOutcome(HandleEnding(cfg, s, d, vol, env))
  {
    hide Recalled;
  }

  lemma HandlerIsSafe(cfg: Config, s: State, d: Disk, vol: Volatile, env: Env)
    requires StoreWorks(env) && AfterStored(s, d) && !s.kind.Init?
    ensures SafeOutcome(Handle(cfg, s, d, vol, env))
  {
    hide Recalled, HandleEnding, HandleGate, HandleInit, HandleStore, HandleInstall, HandleCommit, HandleReboot;
    if s.kind.IsEnding() { EndIsSafe(cfg, s, d, vol, env); }
    if s.kind.AfterFirstCommit? {
      var d1 := AddFacts(d, CommitFacts(env, 1, vol.installers));
      FlagIsSafe(d1, s.info);
    }
  }

  lemma HandleIsSafe(cfg: Config, s: State, d: Disk, vol: Volatile, env: Env)
    requires StoreWorks(env) && SafeDisk(d) && (PastFirstCommit in d.history.facts ==> SafeKind(s.kind))
    ensures SafeOutcome(Handle(cfg, s, d, vol, env))
  {
    if s.kind.Init? {
      InitIsSafe(s, d, vol, env);
    } else if PastFirstCommit in d.history.facts {
      HandlerIsSafe(cfg, s, d, vol, env);
    } else if s.kind.IsGate() || s.kind.IsEnding() || s.kind.IsPolling() {
      RestStaysBefore(cfg, s, d, vol, env);
      BeforeIsSafe(Handle(cfg, s, d, vol, env));
    } else {
      ForwardStaysBefore(cfg, s, d, vol, env);
      BeforeIsSafe(Handle(cfg, s, d, vol, env));
    }
  }

  // ----------------------------------------------------------- the whole step

  lemma WriteIsSafe(m: Machine, env: Env)
    requires StoreWorks(env) && Inv(m) && Safe(m) && m.to.kind.IsUpdateState()
    ensures var (d, r) := StoreNewState(m, env);
            SafeDisk(d) && (PastFirstCommit in d.history.facts ==> SafeKind(m.to.kind))
  {
    hide Inv, StoreNewState, Recalled;
    Recovery.StoreNamesNewState(m, env);
    StoreKeepsPast(m, env);
  }

  lemma StoreKeepsPast(m: Machine, env: Env)
    ensures PastFirstCommit in StoreNewState(m, env).0.history.facts ==>
              PastFirstCommit in m.disk.history.facts || m.to.kind.AfterFirstCommit?
  {
  }

  lemma ErrorIsSafe(s: State, d: Disk, fatal: bool, env: Env)
    requires SafeDisk(d) && (PastFirstCommit in d.history.facts ==> SafeKind(s.kind))
    requires (s.kind.Cleanup? || s.kind.StatusReport?) ==> PastFirstCommit !in d.history.facts
    ensures var (d', next) := HandleError(s, d, fatal, env);
            SafeDisk(d') && d'.history == d.history && (PastFirstCommit in d'.history.facts ==> SafeKind(next.kind))
  {
  }

  /** Past the first commit, only the scripts named Error could stop a Cleanup or a report. */
  lemma ScriptsLetPass(m: Machine, env: Env)
    requires env.errorScripts && SafeKind(m.cur.kind) && SafeKind(m.to.kind)
    ensures m.cur.kind.Cleanup? || m.cur.kind.StatusReport? ==> LeavePasses(m.cur.kind, m.to.kind, env)
    ensures m.to.kind.Cleanup? || m.to.kind.StatusReport? ==> EnterPasses(m.cur.kind, m.to.kind, env)
  {
  }

  lemma EnterIsSafe(cfg: Config, m: Machine, d: Disk, env: Env)
    requires StoreWorks(env) && env.errorScripts && SafeDisk(d)
    requires PastFirstCommit in d.history.facts ==> SafeKind(m.to.kind)
    requires (m.to.kind.Cleanup? || m.to.kind.StatusReport?) && PastFirstCommit in d.history.facts ==>
               EnterPasses(m.cur.kind, m.to.kind, env)
    ensures SafeOutcome(EnterAndHandle(cfg, m, d, env))
  {
    hide Handle, HandleError;
    if EnterPasses(m.cur.kind, m.to.kind, env) { HandleIsSafe(cfg, m.to, d, m.vol, env); }
    else { ErrorIsSafe(m.to, d, false, env); }
  }

  lemma EnterStateIsSafe(cfg: Config, m: Machine, env: Env)
    requires StoreWorks(env) && env.errorScripts && Inv(m) && Safe(m)
    ensures SafeOutcome(EnterState(cfg, m, env))
  {
    hide EnterAndHandle, Inv;
    if PastFirstCommit in m.disk.history.facts { ScriptsLetPass(m, env); }
    if m.to.kind.IsUpdateState() {
      WriteIsSafe(m, env);
      var (d, r) := StoreNewState(m, env);
      if !r.Stored? {
        LimitIsSafe(m, d, r, env);
      } else {
        EnterIsSafe(cfg, m, d, env);
      }
    } else {
      EnterIsSafe(cfg, m, m.disk, env);
    }
  }

  /** A working store can only fail by the loop limit, and that leads to the report. */
  lemma LimitIsSafe(m: Machine, d: Disk, r: StoreResult, env: Env)
    requires r.CountExceeded? && SafeDisk(d) && (PastFirstCommit in d.history.facts ==> SafeKind(m.to.kind))
    ensures var (d1, next) := HandleError(m.to, d, true, env);
            var (d2, next2) := AfterStoreError(d1, next, m.to.info, r, env.flagOk);
            SafeDisk(d1) && SafeDisk(d2) && next2.kind.StatusReport?
  {
    ErrorKeepsFacts(m.to, d, true, env);
  }

  lemma TransitionIsSafe(cfg: Config, m: Machine, env: Env)
    requires StoreWorks(env) && env.errorScripts && Inv(m) && Safe(m)
    ensures SafeOutcome(TransitionState(cfg, m, env))
  {
    hide EnterState, Inv, HandleError;
    if PastFirstCommit in m.disk.history.facts { ScriptsLetPass(m, env); }
    if LeavePasses(m.cur.kind, m.to.kind, env) {
      LeftKeepsInv(m);
      LeftIsSafe(m);
      EnterStateIsSafe(cfg, Left(m), env);
    } else {
      ErrorIsSafe(m.cur, m.disk, false, env);
    }
  }

  lemma LeftIsSafe(m: Machine)
    requires Safe(m)
    ensures Safe(Left(m))
  {
    hide Recalled;
  }

  lemma NextIsSafe(cfg: Config, m: Machine, c: Choice)
    requires Benign(c) && Inv(m) && Safe(m)
    ensures Safe(Next(cfg, m, c))
  {
    hide TransitionState, Inv, Started, StartCuts, SafeDisk;
    StartedIsSafe(m, c.env);
    StartedKeepsInv(m, c.env);
    TransitionIsSafe(cfg, Started(m, c.env), c.env);
    if c.PowerLoss? { BootIsSafe(At(Cuts(cfg, m, c.env), c.cut, m.disk)); }
  }

  lemma BootIsSafe(d: Disk)
    requires SafeDisk(d)
    ensures Safe(Boot(d))
  {
  }

  lemma StartedIsSafe(m: Machine, env: Env)
    requires StoreWorks(env) && Safe(m)
    ensures Safe(Started(m, env)) && forall i :: 0 <= i < |StartCuts(m, env)| ==> SafeDisk(StartCuts(m, env)[i])
  {
    hide Recalled, CountedAtStart, Bootstrap, BelowLimit;
    LoadRecounts(m.disk, env);
    BootstrapRecounts(m.disk, env);
  }

  /**
   Point of no return: from the moment AfterFirstCommit is stored, no continuation with
   restarts anywhere enters a rollback state, until the next deployment begins.
   */
  lemma {:induction false} NeverRolledBack(cfg: Config, m: Machine, choices: seq<Choice>)
    requires Inv(m) && Safe(m) && forall c :: c in choices ==> Benign(c)
    ensures var m' := RunAll(cfg, m, choices);
            Safe(m') && (PastFirstCommit in m'.disk.history.facts ==>
                           !m'.to.kind.IsRollback() && !m'.cur.kind.IsRollback())
    decreases |choices|
  {
    hide Next;
    if choices != [] {
      assert Benign(choices[0]);
      NextKeepsInv(cfg, m, choices[0]);
      NextIsSafe(cfg, m, choices[0]);
      NeverRolledBack(cfg, Next(cfg, m, choices[0]), choices[1..]);
    }
  }

  /** In particular every run from a clean device. */
  lemma NeverRolledBackFromBoot(cfg: Config, d: Disk, choices: seq<Choice>)
    requires StartsClean(d) && forall c :: c in choices ==> Benign(c)
    ensures var m := RunAll(cfg, Boot(d), choices);
            PastFirstCommit in m.disk.history.facts ==> !m.to.kind.IsRollback() && !m.cur.kind.IsRollback()
  {
    CleanStartHasInv(d);
    NeverRolledBack(cfg, Boot(d), choices);
  }

  // ------------------------------------------------ exactly when it is violated

  predicate CleanupOrReport(k: Kind) { k.Cleanup? || k.StatusReport? }

  /**
   With no assumption on database or scripts: from a state past the first commit, one
   step turns to a rollback exactly when the payloads support it and either a Cleanup or
   a report cannot be stored, or an Error script fails on entering or leaving a Cleanup
   that was created for a failure.
   */
  lemma RolledBackExactly(cfg: Config, m: Machine, env: Env)
    requires SafeKind(m.cur.kind) && SafeKind(m.to.kind) && !m.to.kind.Init?
    ensures
      var leave := LeavePasses(m.cur.kind, m.to.kind, env);
      var stored := if m.to.kind.IsUpdateState() then StoreNewState(Left(m), env).1 else Stored;
      Next(cfg, m, Go(env)).to.kind.IsRollback() <==>
        if !leave then m.cur.kind == Cleanup(false) && !env.errorScripts && m.cur.info.supportsRollback.Supported?
        else
          && CleanupOrReport(m.to.kind) && m.to.info.supportsRollback.Supported?
          && (stored.StoreFailed?
              || (stored.Stored? && m.to.kind == Cleanup(false) && !env.errorScripts
                  && ShouldTransit(m.cur.kind, m.to.kind)))
  {
    hide StoreNewState;
    if LeavePasses(m.cur.kind, m.to.kind, env) {
      EnterRollsBackExactly(cfg, Left(m), env);
    }
  }

  lemma EnterRollsBackExactly(cfg: Config, m: Machine, env: Env)
    requires SafeKind(m.to.kind) && !m.to.kind.Init?
    ensures
      var stored := if m.to.kind.IsUpdateState() then StoreNewState(m, env).1 else Stored;
      EnterState(cfg, m, env).next.kind.IsRollback() <==>
          && CleanupOrReport(m.to.kind) && m.to.info.supportsRollback.Supported?
          && (stored.StoreFailed?
              || (stored.Stored? && m.to.kind == Cleanup(false) && !env.errorScripts
                  && ShouldTransit(m.cur.kind, m.to.kind)))
  {
    hide StoreNewState, Handle;
    forall d: Disk { SafeHandlerGoesOn(cfg, m.to, d, m.vol, env); }
  }

  lemma SafeHandlerGoesOn(cfg: Config, s: State, d: Disk, vol: Volatile, env: Env)
    requires SafeKind(s.kind) && !s.kind.Init?
    ensures !Handle(cfg, s, d, vol, env).next.kind.IsRollback()
  {
  }

  /**
   A Cleanup created for success keeps its transition when a payload's Cleanup fails: it
   reports the failure, and no script on the way there can turn it to a rollback.
   */
  lemma FailedPayloadCleanup(cfg: Config, m: Machine, env: Env, later: Env)
    requires m.cur.kind.AfterCommit? && m.to.kind == Cleanup(true) && !Exited(m)
    requires LeavePasses(m.cur.kind, m.to.kind, env) && StoreNewState(Left(m), env).1.Stored?
    requires !AllSucceed(env, m.vol.installers)
    ensures var m1 := Next(cfg, m, Go(env));
            && m1.cur.kind == Cleanup(true) && m1.to.kind == StatusReport(false, 0, 0)
            && (StoreNewState(Left(m1), later).1.StoreFailed? || !Next(cfg, m1, Go(later)).to.kind.IsRollback())
  {
    hide StoreNewState, HandleForward, HandlePolling, HandleGate, HandleError;
    RolledBackExactly(cfg, Next(cfg, m, Go(env)), later);
  }

  /** Each of the two assumptions is needed: without it a committed deployment is rolled back. */
  lemma RolledBackWithoutStore(cfg: Config, m: Machine)
    requires m.cur.kind.AfterCommit? && m.to.kind == Cleanup(true) && m.to.info.supportsRollback.Supported?
    ensures Next(cfg, m, Go(Calm().(storeFault := Refused))).to.kind.Rollback?
  {
  }

  lemma RolledBackByErrorScript(cfg: Config, m: Machine)
    requires m.cur.kind.AfterFirstCommit? && m.to.kind == Cleanup(false) && m.to.info.supportsRollback.Supported?
    requires CountFor(m.disk.db, m.to.info) < MAX_STORE_COUNT
    ensures Next(cfg, m, Go(Calm().(errorScripts := false))).to.kind.Rollback?
  {
    hide Handle;
  }
}
