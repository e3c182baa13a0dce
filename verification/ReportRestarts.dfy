/**
 Restarts while the final status is being reported: the attempts kept in the database
 carry the retry budget over, so a wedged report cannot be extended by rebooting.
 */
module ReportRestarts {
  import opened Wrappers
  import opened StateData
  import opened Datastore
  import opened UpdateStates
  import opened Daemon
  import opened Invariants
  import opened Starts
  import opened PointOfNoReturn
  import opened Termination
  import opened Outcomes
  import opened Reporting
  import Recovery

  predicate ReportId(name: StateId) { name.IdUpdateStatusReport? || name.IdStatusReportRetry? }

  predicate HoldsReport(db: Db) { Recalled(db).Some? && ReportId(Recalled(db).value.name) }

  function KeptAttempts(db: Db): nat { if Recalled(db).Some? then Recalled(db).value.info.reportAttempts else 0 }

  // ------------------------------------------------ failed sends are remembered

  /** Below the limit, the stored attempts cover the failed sends stored since a report last landed. */
  predicate DiskRemembers(d: Disk) {
    !Hit(d) && d.db.state.Some? ==>
      if HoldsReport(d.db) then d.history.failedReports <= KeptAttempts(d.db) else d.history.failedReports == 0
  }

  function TriesOf(k: Kind): nat {
    match k
    case StatusReport(_, tries, _) => tries
    case StatusReportRetry(_, _, sends, _) => sends
    case _ => 0
  }

  predicate StateRemembers(cur: Kind, s: State, d: Disk, vol: Volatile) {
    !Hit(d) ==>
      && (s.kind.IsReporting() ==> vol.failedReports <= TriesOf(s.kind) && vol.failedReports <= s.info.reportAttempts)
      && (LeaveMayFail(cur) ==> vol.failedReports == d.history.failedReports == 0)
      && (!s.kind.IsReporting() && !s.kind.IsPolling() ==> vol.failedReports == d.history.failedReports == 0)
      && (s.kind.Init? ==> vol.failedReports == 0)
  }

  predicate Remembers(m: Machine) {
    DiskRemembers(m.disk) && StateRemembers(m.cur.kind, m.to, m.disk, m.vol)
  }

  predicate RemembersOutcome(o: Outcome) {
    Remembers(Machine(o.cur, o.next, o.disk, o.vol)) && forall i :: 0 <= i < |o.cuts| ==> DiskRemembers(o.cuts[i])
  }

  /** No failed send is on record. */
  predicate Unreported(d: Disk) { !Hit(d) ==> d.history.failedReports == 0 }

  predicate Unreporting(d: Disk, vol: Volatile, o: Outcome) {
    && o.vol.failedReports == vol.failedReports && (Hit(d) ==> Hit(o.disk)) && Unreported(o.disk)
    && (o.next.kind.IsReporting() ==> o.next.kind.StatusReport?)
    && (!o.next.kind.Init?)
    && forall i :: 0 <= i < |o.cuts| ==> Unreported(o.cuts[i])
  }

  lemma UnreportingRemembers(d: Disk, vol: Volatile, o: Outcome)
    requires Unreporting(d, vol, o) && (!Hit(d) ==> vol.failedReports == 0)
    ensures RemembersOutcome(o)
  {
    hide Recalled;
  }

  lemma ErrorUnreporting(cur: State, s: State, d: Disk, vol: Volatile, fatal: bool, env: Env)
    requires Unreported(d)
    ensures Unreporting(d, vol, FailedAs(cur, s, d, vol, fatal, env))
  {
    hide Recalled;
  }

  lemma StoreUnreporting(s: State, d: Disk, vol: Volatile, env: Env)
    requires StoreWorks(env) && s.kind.Store? && Ready(s, d, vol) && Unreported(d)
    ensures Unreporting(d, vol, HandleStore(s, d, vol, env))
  {
    hide KindInv, DiskInv, StoreHeaders;
    if env.logger && !env.report.Fatal? && env.headers.Some? && env.headersMatch && env.dependsMet {
      var s1 := State(Store, WithHeaders(s.info.(payloadTypes := env.headers.value), env));
      assert Ready(s1, d, vol.(installers := |env.headers.value|)) by { HeadersStayReady(s, s1, d, vol, env); }
      HeadersUnreporting(s1, d, vol.(installers := |env.headers.value|), env);
    }
  }

  lemma HeadersStayReady(s: State, s1: State, d: Disk, vol: Volatile, env: Env)
    requires s.kind.Store? && Ready(s, d, vol) && env.headers.Some?
    requires s1 == State(Store, WithHeaders(s.info.(payloadTypes := env.headers.value), env))
    ensures Ready(s1, d, vol.(installers := |env.headers.value|))
  {
  }

  lemma HeadersUnreporting(s: State, d: Disk, vol: Volatile, env: Env)
    requires StoreWorks(env) && s.kind.Store? && Ready(s, d, vol) && Unreported(d)
    ensures Unreporting(d, vol, StoreHeaders(s, d, vol, env))
  {
    hide StoreSupport, Recalled, DiskInv;
    WriteKeepsInv(d, IdUpdateStore, s.info, true);
    var (d1, r) := Put(d, IdUpdateStore, s.info, true, NoFault);
    if r.Stored? {
      MilestonesKeepInv(s, d1, vol, DownloadFacts(env));
      SupportUnreporting(s, AddFacts(d1, DownloadFacts(env)), vol, env);
    }
  }

  lemma SupportUnreporting(s: State, d: Disk, vol: Volatile, env: Env)
    requires StoreWorks(env) && s.kind.Store? && DiskInv(d) && InfoInv(s.info, d) && Unreported(d)
    ensures Unreporting(d, vol, StoreSupport(s, d, vol, env))
  {
    hide Recalled, DiskInv, CollectSupport;
    var (support, ok) := CollectSupport(s.info.supportsRollback, env.rollbackAnswers, 0, vol.installers);
    var info1 := s.info.(supportsRollback := support);
    assert InfoInv(info1, d);
  }

  lemma InstallUnreporting(s: State, d: Disk, vol: Volatile, env: Env)
    requires StoreWorks(env) && s.kind.Install? && Ready(s, d, vol) && Unreported(d)
    ensures Unreporting(d, vol, HandleInstall(s, d, vol, env))
  {
    hide DiskInv, CollectReboots, StoreInstall, Recalled, HandleError, FailedAs, Unreporting, InstallFacts;
    var d1 := AddFacts(d, InstallFacts(env, vol.installers));
    InstallFactsAreMilestones(env, vol.installers);
    MilestonesKeepInv(s, d, vol, InstallFacts(env, vol.installers));
    assert Unreported(d1);
    ErrorUnreporting(s, s, d, vol, true, env);
    ErrorUnreporting(s, s, d1, vol, false, env);
    var (requested, ok) := CollectReboots(s.info.rebootRequested, env.rebootAnswers, 0, vol.installers);
    var s1 := State(Install, s.info.(rebootRequested := requested));
    assert InfoInv(s1.info, d1);
    ErrorUnreporting(s1, s1, d1, vol, false, env);
    StoreInstallUnreporting(s1, d1, vol, env);
    GotoUnreporting(s, UpdateError, d, vol);
    if env.logger && !env.report.Fatal? {
      FactsUnreporting(d, InstallFacts(env, vol.installers), vol, HandleInstall(s, d, vol, env));
    }
  }

  lemma FactsUnreporting(d: Disk, facts: set<Fact>, vol: Volatile, o: Outcome)
    requires Unreporting(AddFacts(d, facts), vol, o)
    ensures Unreporting(d, vol, o)
  {
  }

  lemma GotoUnreporting(s: State, kind: Kind, d: Disk, vol: Volatile)
    requires Unreported(d) && !kind.Init? && !kind.StatusReportRetry?
    ensures Unreporting(d, vol, Goto(s, kind, d, vol))
  {
  }

  lemma StoreInstallUnreporting(s: State, d: Disk, vol: Volatile, env: Env)
    requires StoreWorks(env) && DiskInv(d) && InfoInv(s.info, d) && Unreported(d)
    ensures Unreporting(d, vol, StoreInstall(s, d, vol, env))
  {
    hide DiskInv, Recalled, HandleError;
    var d1 := Put(d, IdUpdateInstall, s.info, true, NoFault).0;
    ErrorIsQuiet(s, d1, env);
  }

  lemma CommitUnreporting(cfg: Config, s: State, d: Disk, vol: Volatile, env: Env)
    requires StoreWorks(env) && s.kind.Commit? && Unreported(d)
    ensures Unreporting(d, vol, HandleCommit(cfg, s, d, vol, env))
  {
    hide StoreCommit, Recalled, HandleError, FailedAs;
    ErrorUnreporting(s, s, d, vol, false, env);
    var tries := s.kind.tries + 1;
    var s1 := State(Commit(tries), s.info.(reportAttempts := AttemptsAfter(tries, env.report)));
    ErrorUnreporting(s1, s1, d, vol, env.report.Fatal?, env);
    var fact := if vol.installers > 0 then Committed(0) else EmptyArtifact;
    StoreCommitUnreporting(cfg, State(Commit(tries), s1.info.(schemaUpdate := false)), AddFacts(d, {fact}), vol, env);
  }

  lemma StoreCommitUnreporting(cfg: Config, s: State, d: Disk, vol: Volatile, env: Env)
    requires StoreWorks(env) && Unreported(d) && !s.info.schemaUpdate
    ensures Unreporting(d, vol, StoreCommit(cfg, s, d, vol, env))
  {
  }

  lemma GateUnreporting(cfg: Config, s: State, d: Disk, vol: Volatile, env: Env)
    requires s.kind.IsGate() && Unreported(d)
    ensures Unreporting(d, vol, HandleGate(cfg, s, d, vol, env))
  {
    hide Recalled, HandleError;
    var w := if s.kind.ControlMapPause? then s else State(Wrapped(s.kind.gate), s.info);
    var told := vol.(pauseReported := vol.pauseReported + {s.kind.gate});
    ErrorUnreporting(s, w, d, vol, false, env);
    ErrorUnreporting(s, w, d, told, true, env);
  }

  lemma OtherUnreporting(cfg: Config, s: State, d: Disk, vol: Volatile, env: Env)
    requires !s.kind.IsPolling() && !s.kind.IsGate() && !s.kind.IsReporting()
    requires !s.kind.Store? && !s.kind.Install? && !s.kind.Commit? && Unreported(d)
    ensures Unreporting(d, vol, Handle(cfg, s, d, vol, env))
  {
    hide Recalled, HandleError, HandleStore, HandleInstall, HandleCommit, HandleGate, HandlePolling, ScanReboots;
    if s.kind.PreCommitRetry? {
      ErrorUnreporting(s, State(Commit(s.kind.tries), s.info), d, vol, false, env);
    } else if s.kind.AfterFirstCommit? {
      var d1 := AddFacts(d, CommitFacts(env, 1, vol.installers));
      assert Unreported(d1);
      ErrorUnreporting(s, s, d1, vol, false, env);
    } else if s.kind.VerifyReboot? {
      var d1 := AddFacts(d, VerifyFacts(env, vol.installers));
      assert Unreported(d1);
      ErrorUnreporting(s, s, d1, vol, false, env);
    } else {
      ErrorUnreporting(s, s, d, vol, false, env);
      ErrorUnreporting(s, s, d, vol, true, env);
    }
  }

  lemma HandlerUnreporting(cfg: Config, s: State, d: Disk, vol: Volatile, env: Env)
    requires StoreWorks(env) && Ready(s, d, vol) && !s.kind.IsPolling() && !s.kind.IsReporting()
    requires Unreported(d)
    ensures Unreporting(d, vol, Handle(cfg, s, d, vol, env))
  {
    hide Unreporting, Unreported, DiskInv;
    hide HandleStore, HandleInstall, HandleCommit, HandleGate, HandlePolling, HandleEnding;
    if s.kind.Store? { StoreUnreporting(s, d, vol, env); }
    else if s.kind.Install? { InstallUnreporting(s, d, vol, env); }
    else if s.kind.Commit? { CommitUnreporting(cfg, s, d, vol, env); }
    else if s.kind.IsGate() { GateUnreporting(cfg, s, d, vol, env); }
    else { OtherUnreporting(cfg, s, d, vol, env); }
  }

  // ----------------------------------------------------------- the whole step

  lemma ReportHandlerRemembers(cfg: Config, s: State, d: Disk, vol: Volatile, env: Env)
    requires s.kind.IsReporting() && DiskRemembers(d)
    requires !Hit(d) ==> vol.failedReports <= TriesOf(s.kind) && vol.failedReports <= s.info.reportAttempts
    ensures RemembersOutcome(Handle(cfg, s, d, vol, env))
  {
    hide Recalled;
  }

  lemma InitRemembers(s: State, d: Disk, vol: Volatile, env: Env)
    requires StoreWorks(env) && s.kind.Init? && DiskInv(d) && DiskRemembers(d) && (!Hit(d) ==> vol.failedReports == 0)
    ensures RemembersOutcome(HandleInit(s, d, vol, env))
  {
    hide RecordInv, NameInv, CommittedNameInv, LoadStateData, Recalled, Resume;
    LoadRemembers(d);
    var (db, loaded) := LoadStateData(d.db, NoFault);
    if loaded.Loaded? && env.restored {
      ResumeRemembers(loaded.record, NoteResume(LimitSettled(d.(db := db)), loaded.record), env);
    }
  }

  lemma LoadRemembers(d: Disk)
    requires DiskInv(d) && DiskRemembers(d)
    ensures var (db, loaded) := LoadStateData(d.db, NoFault);
            && (loaded.NotFound? || loaded.Loaded? || loaded.LoadExceeded?)
            && (!loaded.NotFound? ==> db.state.Some? && Recalled(db) == Some(loaded.record))
            && (loaded.NotFound? ==> db == d.db)
            && DiskRemembers(d.(db := db))
  {
    hide RecordInv, NameInv, CommittedNameInv;
  }

  lemma ResumeRemembers(r: Record, d: Disk, env: Env)
    requires env.removeOk && DiskRemembers(d) && d.db.state.Some? && Recalled(d.db) == Some(r)
    ensures var (d', next) := Resume(r, d, env);
            && DiskRemembers(d') && d'.history == d.history && !next.kind.Init?
            && (!Hit(d) ==>
                  if next.kind.IsReporting()
                  then next.kind.StatusReport? && d.history.failedReports <= next.kind.tries
                    && d.history.failedReports <= next.info.reportAttempts
                  else next.kind.IsPolling() || d.history.failedReports == 0)
  {
  }

  lemma PollingRemembers(s: State, d: Disk, vol: Volatile, env: Env)
    requires env.removeOk && Over(s.kind) && DiskRemembers(d) && (s.kind.UpdateCheck? ==> d.db.state.None?)
    ensures RemembersOutcome(HandlePolling(s, d, vol, env))
  {
    hide Recalled;
  }

  lemma HandleRemembers(cfg: Config, s: State, d: Disk, vol: Volatile, env: Env)
    requires StoreWorks(env) && Ready(s, d, vol) && DiskRemembers(d)
    requires s.kind.Init? ==> !Hit(d) ==> vol.failedReports == 0
    requires s.kind.IsReporting() ==> !Hit(d) ==>
               vol.failedReports <= TriesOf(s.kind) && vol.failedReports <= s.info.reportAttempts
    requires !s.kind.IsReporting() && !s.kind.IsPolling() ==> Unreported(d) && (!Hit(d) ==> vol.failedReports == 0)
    ensures RemembersOutcome(Handle(cfg, s, d, vol, env))
  {
    hide RemembersOutcome, HandleForward, HandleEnding, HandleGate, HandleInit, Unreporting, Unreported, DiskRemembers;
    if s.kind.Init? { InitRemembers(s, d, vol, env); }
    else if s.kind.IsPolling() { PollingRemembers(s, d, vol, env); }
    else if s.kind.IsReporting() { ReportHandlerRemembers(cfg, s, d, vol, env); }
    else {
      HandlerUnreporting(cfg, s, d, vol, env);
      UnreportingRemembers(d, vol, Handle(cfg, s, d, vol, env));
    }
  }

  lemma EntryRemembers(m: Machine, env: Env)
    requires StoreWorks(env) && Inv(m) && Remembers(m) && m.to.kind.IsUpdateState()
    ensures var (d, r) := StoreNewState(m, env);
            && DiskRemembers(d) && (Hit(m.disk) ==> Hit(d)) && (!r.Stored? ==> Hit(d))
            && (!m.to.kind.IsReporting() ==> Unreported(d))
  {
    hide KindInv, NameInv, CommittedNameInv;
    StateMayBeStored(m.to, m.disk, m.vol);
    WriteKeepsInv(m.disk, m.to.kind.Id(), m.to.info, Counted(m.cur.kind, m.to.kind));
    var (d, r) := StoreNewState(m, env);
    assert Recalled(d.db).value.name == m.to.kind.Id();
    assert Recalled(d.db).value.info.reportAttempts == m.to.info.reportAttempts;
    assert d.db.state.Some?;
  }

  lemma ErrorRemembers(cur: State, s: State, d: Disk, vol: Volatile, env: Env)
    requires DiskRemembers(d)
    requires !Hit(d) && !s.kind.IsPolling() ==> Unreported(d) && vol.failedReports == 0
    requires cur.kind == s.kind
    ensures RemembersOutcome(FailedAs(cur, s, d, vol, false, env))
  {
    hide Recalled, HandleError;
    ErrorIsQuiet(s, d, env);
  }

  lemma ErrorIsQuiet(s: State, d: Disk, env: Env)
    ensures var (d', next) := HandleError(s, d, false, env);
            && d'.history == d.history && d'.db.state == d.db.state && d'.db.uncommitted == d.db.uncommitted
            && Recalled(d'.db) == Recalled(d.db)
            && !next.kind.IsReporting() && !next.kind.Init? && (s.kind.IsPolling() ==> next.kind.IsPolling())
  {
  }

  lemma EnterRemembers(cfg: Config, m: Machine, d: Disk, env: Env)
    requires ScriptsFine(env) && Ready(m.to, d, m.vol) && Remembers(m) && DiskRemembers(d) && (Hit(m.disk) ==> Hit(d))
    requires !m.to.kind.IsReporting() && !m.to.kind.IsPolling() ==> Unreported(d)
    ensures RemembersOutcome(EnterAndHandle(cfg, m, d, env))
  {
    hide RemembersOutcome, Handle, FailedAs, Unreported, DiskRemembers, Recalled, DiskInv, KindInv;
    if EnterPasses(m.cur.kind, m.to.kind, env) { HandleRemembers(cfg, m.to, d, m.vol, env); }
    else { ErrorRemembers(m.to, m.to, d, m.vol, env); }
  }

  lemma LimitRemembers(m: Machine, d: Disk, r: StoreResult, env: Env)
    requires Hit(d) && r.CountExceeded?
    ensures var (d1, next) := HandleError(m.to, d, true, env);
            var (d2, next2) := AfterStoreError(d1, next, m.to.info, r, env.flagOk);
            Hit(d1) && Hit(d2)
  {
    ErrorKeepsFacts(m.to, d, true, env);
  }

  lemma EnterStateRemembers(cfg: Config, m: Machine, env: Env)
    requires ScriptsFine(env) && Inv(m) && Remembers(m)
    requires m.to.kind == Cleanup(true) ==> CommitLeaveOk in m.disk.history.facts
    ensures RemembersOutcome(EnterState(cfg, m, env))
  {
    hide EnterAndHandle, HandleError, Recalled, DiskInv, KindInv, InfoInv;
    if m.to.kind.IsUpdateState() {
      EntryRemembers(m, env);
      StoreNewStateKeepsInv(m, env);
      EntryCounts(m, env);
      var (d, r) := StoreNewState(m, env);
      if r.Stored? { EnterRemembers(cfg, m, d, env); } else { LimitRemembers(m, d, r, env); }
    } else {
      EnterRemembers(cfg, m, m.disk, env);
    }
  }

  lemma TransitionRemembers(cfg: Config, m: Machine, env: Env)
    requires ScriptsFine(env) && Inv(m) && Remembers(m)
    ensures RemembersOutcome(TransitionState(cfg, m, env))
  {
    hide EnterState, FailedAs, HandleError, Recalled, DiskInv, KindInv, InfoInv;
    if LeavePasses(m.cur.kind, m.to.kind, env) {
      LeftKeepsInv(m);
      EnterStateRemembers(cfg, Left(m), env);
    } else {
      LeaveStops(m.cur.kind, m.to.kind, env);
      ErrorRemembers(m.cur, m.cur, m.disk, m.vol, env);
    }
  }

  lemma NextRemembers(cfg: Config, m: Machine, c: Choice)
    requires Benign(c) && Inv(m) && Remembers(m)
    ensures Remembers(Next(cfg, m, c))
  {
    hide TransitionState, Inv, DiskRemembers, Started, StartCuts;
    StartedKeepsInv(m, c.env);
    StartedRemembers(m, c.env);
    TransitionRemembers(cfg, Started(m, c.env), c.env);
  }

  lemma RecountRemembers(d: Disk, d': Disk)
    requires Recounted(d, d') && DiskRemembers(d)
    ensures DiskRemembers(d') && Hit(d') == Hit(d) && d'.history.failedReports == d.history.failedReports
    ensures HoldsReport(d'.db) == HoldsReport(d.db) && KeptAttempts(d'.db) == KeptAttempts(d.db)
  {
    hide Recalled;
  }

  lemma StartedRemembers(m: Machine, env: Env)
    requires StoreWorks(env) && Remembers(m)
    ensures Remembers(Started(m, env))
    ensures forall i :: 0 <= i < |StartCuts(m, env)| ==> DiskRemembers(StartCuts(m, env)[i])
  {
    hide CountedAtStart, Bootstrap, DiskRemembers, Recounted;
    LoadRecounts(m.disk, env);
    BootstrapRecounts(m.disk, env);
    RecountRemembers(m.disk, CountedAtStart(m.disk, env));
    RecountRemembers(m.disk, Bootstrap(m.disk, env));
  }

  lemma {:induction false} RunRemembers(cfg: Config, m: Machine, choices: seq<Choice>)
    requires Inv(m) && Remembers(m) && forall c :: c in choices ==> Benign(c)
    ensures Inv(RunAll(cfg, m, choices)) && Remembers(RunAll(cfg, m, choices))
    decreases |choices|
  {
    hide Next, Remembers, DiskInv, KindInv;
    if choices != [] {
      assert Benign(choices[0]);
      NextKeepsInv(cfg, m, choices[0]);
      NextRemembers(cfg, m, choices[0]);
      RunRemembers(cfg, Next(cfg, m, choices[0]), choices[1..]);
    }
  }

  /**
   After any run, and before the loop limit has fired, a boot resumes a report with at
   least as many attempts as failed sends are stored since a report last landed, exactly
   when nothing had failed, or the payload handlers can be restored and the second load
   does not find the maximum.
   */
  lemma ResumedAttemptsExactly(cfg: Config, d: Disk, choices: seq<Choice>, env: Env)
    requires StartsClean(d) && d.history.failedReports == 0
    requires StoreWorks(env) && forall c :: c in choices ==> Benign(c)
    ensures var m := RunAll(cfg, Boot(d), choices);
            m.cur.kind.Init? && m.to.kind.Init? && !Hit(m.disk) && HoldsReport(m.disk.db) ==>
              var next := Next(cfg, m, Go(env)).to.kind;
              next.StatusReport?
              && (next.tries >= m.disk.history.failedReports <==>
                    m.disk.history.failedReports == 0
                    || (env.restored && Count(m.disk.db) != MAX_STORE_COUNT - 1))
  {
    hide Next, Inv, Recalled, Count, RunAll, StartsClean;
    CleanBootRemembers(d);
    RunRemembers(cfg, Boot(d), choices);
    var m := RunAll(cfg, Boot(d), choices);
    if m.cur.kind.Init? && m.to.kind.Init? && !Hit(m.disk) && HoldsReport(m.disk.db) {
      RecalledMeansStored(m.disk.db);
      BootResumesReport(cfg, m, env);
    }
  }

  lemma RecalledMeansStored(db: Db)
    ensures Recalled(db).Some? ==> db.state.Some?
  {
  }

  lemma CleanBootRemembers(d: Disk)
    requires StartsClean(d) && d.history.failedReports == 0
    ensures Inv(Boot(d)) && Remembers(Boot(d))
  {
    CleanStartHasInv(d);
  }

  lemma BootResumesReport(cfg: Config, m: Machine, env: Env)
    requires Inv(m) && m.cur.kind.Init? && m.to.kind.Init? && StoreWorks(env)
    requires HoldsReport(m.disk.db)
    ensures var next := Next(cfg, m, Go(env)).to.kind;
            next.StatusReport?
            && next.tries == (if env.restored && Count(m.disk.db) != MAX_STORE_COUNT - 1 then KeptAttempts(m.disk.db)
                              else 0)
  {
    hide Inv, Bootstrap, HoldsReport, KeptAttempts, TransitionState, Recalled;
    var n := Started(m, env);
    BootstrapRecounts(m.disk, env);
    StartedKeepsInv(m, env);
    StartHolds(m.disk, env);
    BootOutcome(cfg, n, env);
    RecountedCount(m.disk, Bootstrap(m.disk, env));
  }

  lemma RecountedCount(d: Disk, d': Disk)
    requires Recounted(d, d') && HoldsReport(d.db)
    ensures Count(d'.db) >= MAX_STORE_COUNT <==> Count(d.db) == MAX_STORE_COUNT - 1
  {
    hide Recalled;
  }

  /** The loads of a start leave the attempts alone. */
  lemma StartHolds(d: Disk, env: Env)
    requires StoreWorks(env) && HoldsReport(d.db)
    ensures Holds(CountedAtStart(d, env), KeptAttempts(d.db)) && Holds(Bootstrap(d, env), KeptAttempts(d.db))
  {
    hide CountedAtStart, Bootstrap, Recalled;
    LoadRecounts(d, env);
    BootstrapRecounts(d, env);
  }

  // ------------------------------------------- the budget over all restarts

  /** Every send fails transiently, and the payload handlers can be restored. */
  predicate Wedged(c: Choice) { Benign(c) && c.env.report.Transient? && c.env.restored }

  /** The step is taken at least as far as its first write; a power loss may come at any point after it. */
  predicate Begins(cfg: Config, m: Machine, c: Choice) { c.PowerLoss? ==> 0 < c.cut < |Cuts(cfg, m, c.env)| }

  /** Whether the loop limit fires in this step: when the report is stored, or in the second load of a start. */
  predicate FiresIn(cfg: Config, m: Machine, c: Choice) {
    if m.to.kind.IsReporting() then Begins(cfg, m, c) && StoreNewState(Left(m), c.env).1.CountExceeded?
    else
      && (c.PowerLoss? ==> |StartCuts(m, c.env)| <= c.cut < |Cuts(cfg, m, c.env)|)
      && LoadStateData(Started(m, c.env).disk.db, c.env.loadFault).1.LoadExceeded?
  }

  /** Whether this step sends the status. */
  predicate SendsIn(cfg: Config, m: Machine, c: Choice) {
    m.to.kind.StatusReport? && Begins(cfg, m, c) && !FiresIn(cfg, m, c)
  }

  predicate InReport(m: Machine) { m.to.kind.Init? || m.to.kind.IsReporting() }

  /** The sends of a reporting sequence, until it is over. */
  function SendCount(cfg: Config, m: Machine, choices: seq<Choice>): nat
    decreases |choices|
  {
    if choices == [] || !InReport(m) then 0
    else (if SendsIn(cfg, m, choices[0]) then 1 else 0) + SendCount(cfg, Next(cfg, m, choices[0]), choices[1..])
  }

  /** How often the loop limit fires in a reporting sequence. */
  function FireCount(cfg: Config, m: Machine, choices: seq<Choice>): nat
    decreases |choices|
  {
    if choices == [] || !InReport(m) then 0
    else (if FiresIn(cfg, m, choices[0]) then 1 else 0) + FireCount(cfg, Next(cfg, m, choices[0]), choices[1..])
  }

  function Losses(choices: seq<Choice>): nat
    decreases |choices|
  {
    if choices == [] then 0 else (if choices[0].PowerLoss? then 1 else 0) + Losses(choices[1..])
  }

  /** The sends so far fit the counters in memory and on disk, above what losses and the limit have given away. */
  predicate CountersCover(cfg: Config, s: State, sent: nat, given: nat) {
    match s.kind
    case StatusReport(_, tries, _) =>
      sent <= tries + given && tries <= s.info.reportAttempts && sent + 1 <= MaxSends(cfg) + given
    case StatusReportRetry(_, spent, sends, _) =>
      sent <= sends + given && sends <= s.info.reportAttempts && spent == sends && sent <= MaxSends(cfg) + given
    case _ => false
  }

  predicate BudgetInv(cfg: Config, m: Machine, sent: nat, given: nat) {
    && Inv(m) && HoldsReport(m.disk.db) && sent <= KeptAttempts(m.disk.db) + given + 1
    && !LeaveMayFail(m.cur.kind) && !m.cur.kind.UpdateCheck?
    && if m.to.kind.Init?
       then m.cur.kind.Init? && sent <= KeptAttempts(m.disk.db) + given && sent + 1 <= MaxSends(cfg) + given
       else CountersCover(cfg, m.to, sent, given)
  }

  /** What a step gives away: a send that is not on record, or all that the counters say. */
  function GivenIn(cfg: Config, m: Machine, c: Choice): nat {
    (if c.PowerLoss? then 1 else 0) + (if FiresIn(cfg, m, c) then MaxSends(cfg) else 0)
  }

  function SentIn(cfg: Config, m: Machine, c: Choice): nat { if SendsIn(cfg, m, c) then 1 else 0 }

  /** This disk holds a report with so many attempts. */
  predicate Holds(d: Disk, attempts: nat) { HoldsReport(d.db) && KeptAttempts(d.db) == attempts }

  lemma ReportEntryKeepsAttempts(m: Machine, env: Env)
    requires StoreWorks(env) && Inv(m) && m.to.kind.IsReporting()
    ensures var (d, r) := StoreNewState(m, env); Holds(d, m.to.info.reportAttempts) && (r.Stored? || r.CountExceeded?)
  {
    hide RecordInv, NameInv, CommittedNameInv, KindInv;
  }

  lemma WedgedHandler(cfg: Config, s: State, d: Disk, vol: Volatile, env: Env, sent: nat, given: nat)
    requires s.kind.IsReporting() && env.report.Transient? && CountersCover(cfg, s, sent, given)
    ensures var o := Handle(cfg, s, d, vol, env);
            var sent' := if s.kind.StatusReport? then sent + 1 else sent;
            && o.disk == d && o.cur.kind.IsReporting()
            && (o.next.kind.Idle? || CountersCover(cfg, o.next, sent', given))
  {
  }

  lemma SameRecordHolds(d: Disk, d': Disk, attempts: nat)
    requires Recovery.SameRecord(d, d') && Holds(d, attempts)
    ensures Holds(d', attempts)
  {
  }

  /** What one step of a report leaves: its handler's machine on the stored disk, or a report that starts over. */
  lemma ReportOutcome(cfg: Config, m: Machine, env: Env)
    requires ScriptsFine(env) && Inv(m) && m.to.kind.IsReporting() && !LeaveMayFail(m.cur.kind)
    requires !m.cur.kind.UpdateCheck?
    ensures var (d, r) := StoreNewState(Left(m), env);
            var o := Handle(cfg, m.to, d, m.vol, env);
            var m' := Next(cfg, m, Go(env));
            && Holds(d, m.to.info.reportAttempts) && Holds(m'.disk, m.to.info.reportAttempts)
            && (if r.Stored? then m' == Machine(o.cur, o.next, o.disk, o.vol)
                else r.CountExceeded? && m'.cur == m.to && m'.to == State(StatusReport(false, 0, 0), m.to.info))
            && forall i :: 0 < i < |Cuts(cfg, m, env)| ==> Holds(Cuts(cfg, m, env)[i], m.to.info.reportAttempts)
  {
    hide Handle, HandleError, KindInv, InfoInv, DiskInv, EnterAndHandle, Recalled, TransitionState, Holds;
    ReportLeavePasses(m.cur.kind, m.to.kind, env);
    LeftKeepsInv(m);
    var n := Left(m);
    var attempts := m.to.info.reportAttempts;
    ReportEntryKeepsAttempts(n, env);
    var (d, r) := StoreNewState(n, env);
    RunsTheEntry(cfg, m, env);
    TransitionEnters(cfg, m, env);
    var e := EnterState(cfg, n, env);
    if r.Stored? {
      ReportEnters(cfg, n, d, env);
      ReportHandlerDescends(cfg, m.to, d, m.vol, env);
      assert e.cuts == [d];
      assert Cuts(cfg, m, env) == [m.disk, d];
    } else {
      Recovery.HandleErrorSameRecord(m.to, d, true, env);
      SameRecordHolds(d, HandleError(m.to, d, true, env).0, attempts);
      SameRecordHolds(d, e.disk, attempts);
      assert Cuts(cfg, m, env) == [m.disk, e.cuts[0], e.cuts[1]];
    }
  }

  lemma TransitionEnters(cfg: Config, m: Machine, env: Env)
    requires LeavePasses(m.cur.kind, m.to.kind, env)
    ensures TransitionState(cfg, m, env) == EnterState(cfg, Left(m), env)
  {
    hide EnterState;
  }

  lemma LossBoots(cfg: Config, m: Machine, c: Choice)
    requires c.PowerLoss?
    ensures Next(cfg, m, c) == Boot(At(Cuts(cfg, m, c.env), c.cut, m.disk))
    ensures !Begins(cfg, m, c) ==> Next(cfg, m, c) == Boot(m.disk)
  {
    hide TransitionState;
  }

  lemma ReportKeepsBudget(cfg: Config, m: Machine, c: Choice, sent: nat, given: nat)
    requires Wedged(c) && m.to.kind.IsReporting() && BudgetInv(cfg, m, sent, given)
    ensures var m' := Next(cfg, m, c);
            !InReport(m') || BudgetInv(cfg, m', sent + SentIn(cfg, m, c), given + GivenIn(cfg, m, c))
  {
    hide Handle, Next, Inv, HoldsReport, KeptAttempts, StoreNewState, Cuts;
    NextKeepsInv(cfg, m, c);
    ReportOutcome(cfg, m, c.env);
    var d := StoreNewState(Left(m), c.env).0;
    WedgedHandler(cfg, m.to, d, m.vol, c.env, sent, given);
    if c.PowerLoss? { LossBoots(cfg, m, c); }
  }

  lemma BootKeepsBudget(cfg: Config, m: Machine, c: Choice, sent: nat, given: nat)
    requires Wedged(c) && m.to.kind.Init? && BudgetInv(cfg, m, sent, given)
    ensures var m' := Next(cfg, m, c);
            !InReport(m') || BudgetInv(cfg, m', sent + SentIn(cfg, m, c), given + GivenIn(cfg, m, c))
  {
    hide Inv, HoldsReport, KeptAttempts, TransitionState, LoadStateData, Bootstrap, CountedAtStart, MaxSends;
    NextKeepsInv(cfg, m, c);
    StartedKeepsInv(m, c.env);
    StartHolds(m.disk, c.env);
    BootOutcome(cfg, Started(m, c.env), c.env);
    if c.PowerLoss? { LossBoots(cfg, m, c); }
  }

  /** The second load of a start, and what it resumes. */
  lemma BootOutcome(cfg: Config, m: Machine, env: Env)
    requires StoreWorks(env) && Inv(m) && m.cur.kind.Init? && m.to.kind.Init? && HoldsReport(m.disk.db)
    ensures var o := TransitionState(cfg, m, env);
            var (kept, loaded) := (KeptAttempts(m.disk.db), LoadStateData(m.disk.db, NoFault).1);
            && o.cur.kind.Init? && Holds(o.disk, kept)
            && o.next.kind.StatusReport? && o.next.info.reportAttempts == kept
            && o.next.kind.tries == (if loaded.LoadExceeded? || !env.restored then 0 else kept)
            && (loaded.LoadExceeded? <==> Count(m.disk.db) >= MAX_STORE_COUNT)
            && forall i :: 0 <= i < |o.cuts| ==> Holds(o.cuts[i], kept)
  {
    hide RecordInv, NameInv, CommittedNameInv, KindInv, InfoInv, HandleError;
    BootEntersDirectly(cfg, m, env);
    TransitionEnters(cfg, m, env);
  }

  /**
   A report that keeps failing is sent at most M times, once more for every power loss,
   and M times more whenever the loop limit fires, which forgets the attempts: restarting
   the service does not start the retries over.
   */
  lemma {:induction false} WedgedSendsAreBounded(cfg: Config, m: Machine, choices: seq<Choice>, sent: nat, given: nat)
    requires BudgetInv(cfg, m, sent, given) && forall c :: c in choices ==> Wedged(c)
    ensures sent + SendCount(cfg, m, choices) <=
            MaxSends(cfg) + given + Losses(choices) + MaxSends(cfg) * FireCount(cfg, m, choices)
    decreases |choices|
  {
    hide Next, BudgetInv, SendsIn, FiresIn, InReport, MaxSends;
    BudgetCovers(cfg, m, sent, given);
    if choices != [] && InReport(m) {
      var c := choices[0];
      assert Wedged(c);
      var m' := Next(cfg, m, c);
      StepKeepsBudget(cfg, m, c, sent, given);
      OneMoreFire(cfg, if FiresIn(cfg, m, c) then 1 else 0, FireCount(cfg, m', choices[1..]));
      if InReport(m') {
        WedgedSendsAreBounded(cfg, m', choices[1..], sent + SentIn(cfg, m, c), given + GivenIn(cfg, m, c));
      } else {
        LastSend(cfg, m, c, sent, given);
      }
    }
  }

  lemma OneMoreFire(cfg: Config, first: nat, rest: nat)
    ensures MaxSends(cfg) * (first + rest) == MaxSends(cfg) * first + MaxSends(cfg) * rest
  {
  }

  lemma BudgetCovers(cfg: Config, m: Machine, sent: nat, given: nat)
    requires BudgetInv(cfg, m, sent, given)
    ensures sent <= MaxSends(cfg) + given
  {
    hide MaxSends;
  }

  lemma LastSend(cfg: Config, m: Machine, c: Choice, sent: nat, given: nat)
    requires BudgetInv(cfg, m, sent, given)
    ensures sent + SentIn(cfg, m, c) <= MaxSends(cfg) + given
  {
    hide Cuts, FiresIn, MaxSends;
  }

  lemma StepKeepsBudget(cfg: Config, m: Machine, c: Choice, sent: nat, given: nat)
    requires Wedged(c) && BudgetInv(cfg, m, sent, given)
    ensures var m' := Next(cfg, m, c);
            !InReport(m') || BudgetInv(cfg, m', sent + SentIn(cfg, m, c), given + GivenIn(cfg, m, c))
  {
    hide Next, FiresIn, Inv;
    if m.to.kind.Init? { BootKeepsBudget(cfg, m, c, sent, given); } else { ReportKeepsBudget(cfg, m, c, sent, given); }
  }

  /** From the first store of a fresh report on. */
  lemma FreshReportIsBounded(cfg: Config, m: Machine, choices: seq<Choice>)
    requires Inv(m) && HoldsReport(m.disk.db) && !LeaveMayFail(m.cur.kind) && !m.cur.kind.UpdateCheck?
    requires m.to.kind.StatusReport? && m.to.kind.tries == 0
    requires forall c :: c in choices ==> Wedged(c)
    ensures SendCount(cfg, m, choices) <=
            MaxSends(cfg) + Losses(choices) + MaxSends(cfg) * FireCount(cfg, m, choices)
  {
    hide Next, Inv, FiresIn, SendsIn;
    WedgedSendsAreBounded(cfg, m, choices, 0, 0);
  }
}
