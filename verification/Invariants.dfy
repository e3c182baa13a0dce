/**
 What every step and every power loss keeps, as long as the database works: the
 stored record, the artifact name and the facts about the deployment agree.
 */
module Invariants {
  import opened Wrappers
  import opened StateData
  import opened Datastore
  import opened UpdateStates
  import opened Daemon
  import opened Starts

  /** The database accepts every transaction of this step. */
  predicate StoreWorks(env: Env) {
    env.storeFault.NoFault? && env.handlerFault.NoFault? && env.secondFault.NoFault?
    && env.flagOk && env.removeOk && env.loadFault.NoFault?
    && StartWorks(env)
  }

  predicate Works(c: Choice) { StoreWorks(c.env) }

  // ----------------------------------------------------------------- on disk

  predicate FirstCommitted(info: UpdateInfo, facts: set<Fact>) {
    |info.payloadTypes| > 0 ==> Committed(0) in facts
  }

  predicate AllCommitted(info: UpdateInfo, facts: set<Fact>) {
    forall n: nat :: n < |info.payloadTypes| ==> Committed(n) in facts
  }

  predicate AnyCommit(facts: set<Fact>) { Committed(0) in facts || EmptyArtifact in facts }

  /** Everything a report of success stands for. */
  predicate Earned(info: UpdateInfo, facts: set<Fact>) {
    AllCommitted(info, facts) && CommitLeaveOk in facts && CleanupOk in facts && NameStored in facts
  }

  /** The names a record can carry once the commit transaction has gone through. */
  predicate AfterCommitId(name: StateId) {
    match name
    case IdUpdateCommit | IdUpdateAfterFirstCommit | IdUpdateAfterCommit => true
    case IdUpdateCleanup | IdUpdateError | IdUpdateStatusReport | IdStatusReportRetry => true
    case IdRollback | IdRollbackReboot | IdVerifyRollbackReboot | IdAfterRollbackReboot => true
    case _ => false
  }

  predicate RecordInv(r: Record, h: History) {
    && r.info.artifactName == h.newName
    && (r.name.IdUpdateAfterFirstCommit? ==> NameStored in h.facts && FirstCommitted(r.info, h.facts))
    && (r.name.IdUpdateAfterCommit? ==> NameStored in h.facts && AllCommitted(r.info, h.facts))
    && (NameStored in h.facts ==> AfterCommitId(r.name))
  }

  /** The stored name is the old one, one given at a start, the new one after a commit, or the new one marked broken. */
  predicate NameInv(name: Option<string>, h: History) {
    || name == h.oldName
    || (h.bootName.Some? && name == h.bootName)
    || (name == Some(h.newName) && AnyCommit(h.facts))
    || name == Some(h.newName + BROKEN_SUFFIX)
  }

  predicate CommittedNameInv(name: Option<string>, h: History) {
    && (NameStored in h.facts ==>
          AnyCommit(h.facts) && (name == Some(h.newName) || name == Some(h.newName + BROKEN_SUFFIX)))
    && (PastFirstCommit in h.facts ==> NameStored in h.facts)
    && (ResumedFlagged in h.facts ==> NameStored in h.facts && name == Some(h.newName + BROKEN_SUFFIX))
  }

  predicate StoredInv(db: Db, h: History) {
    && (db.state.Some? ==> Recalled(db).Some? && RecordInv(Recalled(db).value, h))
    && (NameStored in h.facts ==> !OldState(db))
  }

  predicate DiskInv(d: Disk) {
    && StoredInv(d.db, d.history)
    && NameInv(d.db.artifact.name, d.history) && (d.history.bootName.Some? ==> d.history.oldName.None?)
    && CommittedNameInv(d.db.artifact.name, d.history)
  }

  // --------------------------------------------------------------- in memory

  /** An update in memory belongs to this deployment and knows which key it is stored under. */
  predicate InfoInv(info: UpdateInfo, d: Disk) {
    && info.artifactName == d.history.newName
    && (if info.schemaUpdate
        then OldState(d.db) && d.db.uncommitted.Some?
          && d.db.uncommitted.value.info.id == d.db.state.value.info.id == info.id
             && info.payloadTypes == ["rootfs-image"]
        else !OldState(d.db))
  }

  /** The broken name has not been stored behind the back of a deployment that goes on. */
  predicate CleanName(d: Disk) {
    ResumedFlagged in d.history.facts || d.db.artifact.name == Some(d.history.newName)
  }

  predicate KindInv(k: Kind, info: UpdateInfo, d: Disk, vol: Volatile) {
    var facts := d.history.facts;
    match k
    case Init | Idle | Error(_) => true
    case CheckWait | UpdateCheck => d.db.state.None?
    case Fetch | FetchStoreRetry | Store => NameStored !in facts && !info.schemaUpdate
    case AfterFirstCommit =>
      NameStored in facts && FirstCommitted(info, facts) && vol.installers == |info.payloadTypes| && CleanName(d)
    case AfterCommit =>
      NameStored in facts && AllCommitted(info, facts) && CleanName(d)
    case Cleanup(success) =>
      success ==> NameStored in facts && AllCommitted(info, facts) && CleanName(d)
    case StatusReport(success, _, _) => success ==> Earned(info, facts) && CleanName(d)
    case StatusReportRetry(success, _, _, _) => success ==> Earned(info, facts) && CleanName(d)
    case UpdateError | Rollback | RollbackReboot | VerifyRollbackReboot | AfterRollbackReboot => true
    case _ => NameStored !in facts && vol.installers == |info.payloadTypes|
  }

  predicate StateInv(s: State, d: Disk, vol: Volatile) {
    (!s.kind.IsPolling() ==> InfoInv(s.info, d)) && KindInv(s.kind, s.info, d, vol)
  }

  predicate Inv(m: Machine) {
    && DiskInv(m.disk)
    && (!m.cur.kind.IsPolling() ==> InfoInv(m.cur.info, m.disk))
    && StateInv(m.to, m.disk, m.vol)
    && (m.to.kind == Cleanup(true) ==> m.cur.kind.AfterCommit?)
  }

  predicate GoodOutcome(o: Outcome) {
    && Inv(Machine(o.cur, o.next, o.disk, o.vol))
    && forall i :: 0 <= i < |o.cuts| ==> DiskInv(o.cuts[i])
  }

  // ------------------------------------------------------------- small writes

  lemma WriteKeepsInv(d: Disk, name: StateId, info: UpdateInfo, inc: bool)
    requires DiskInv(d) && InfoInv(info, d)
    requires RecordInv(Record(CURRENT_VERSION, name, info), d.history)
    ensures var d' := Put(d, name, info, inc, NoFault).0;
            DiskInv(d') && InfoInv(info, d')
            && d'.db.artifact == d.db.artifact && d'.history.newName == d.history.newName
            && (d'.history == d.history || d'.history == LimitFires(d).history)
  {
  }

  lemma FlagKeepsInv(d: Disk, info: UpdateInfo)
    requires DiskInv(d) && info.artifactName == d.history.newName
    ensures DiskInv(SetBroken(d, info, true))
    ensures forall i :: InfoInv(i, d) ==> InfoInv(i, SetBroken(d, info, true))
  {
  }

  /** Where an error can lead: never towards the commit, and never to a report of success. */
  predicate FallBack(k: Kind) {
    match k
    case Error(_) | UpdateError | Rollback | RollbackReboot | VerifyRollbackReboot => true
    case Cleanup(success) => !success
    case StatusReport(success, _, _) => !success
    case _ => false
  }

  lemma ErrorFallsBack(s: State, d: Disk, fatal: bool, env: Env)
    requires env.flagOk
    ensures var (d', next) := HandleError(s, d, fatal, env);
            && FallBack(next.kind)
            && (!next.kind.IsPolling() ==> !s.kind.IsPolling() && next.info == s.info)
            && (d' == d || (!s.kind.IsPolling() && d' == SetBroken(d, s.info, true)))
  {
  }

  lemma ErrorKeepsInv(s: State, d: Disk, fatal: bool, env: Env, vol: Volatile)
    requires env.flagOk && DiskInv(d) && (!s.kind.IsPolling() ==> InfoInv(s.info, d))
    ensures var (d', next) := HandleError(s, d, fatal, env);
            && DiskInv(d') && StateInv(next, d', vol) && FallBack(next.kind)
            && (forall i :: InfoInv(i, d) ==> InfoInv(i, d'))
  {
    ErrorFallsBack(s, d, fatal, env);
    if !s.kind.IsPolling() { FlagKeepsInv(d, s.info); }
  }

  lemma FailedKeepsInv(cur: State, s: State, d: Disk, vol: Volatile, fatal: bool, env: Env)
    requires env.flagOk && DiskInv(d) && (!s.kind.IsPolling() ==> InfoInv(s.info, d))
    requires !cur.kind.IsPolling() ==> InfoInv(cur.info, d)
    ensures GoodOutcome(FailedAs(cur, s, d, vol, fatal, env))
  {
    ErrorKeepsInv(s, d, fatal, env, vol);
  }

  lemma StoreErrorKeepsInv(d: Disk, next: State, info: UpdateInfo, r: StoreResult, vol: Volatile)
    requires DiskInv(d) && InfoInv(info, d) && FallBack(next.kind) && StateInv(next, d, vol)
    ensures var (d', n) := AfterStoreError(d, next, info, r, true);
            DiskInv(d') && StateInv(n, d', vol) && FallBack(n.kind) && (forall i :: InfoInv(i, d) ==> InfoInv(i, d'))
  {
    FlagKeepsInv(d, info);
  }

  lemma GotoKeepsInv(cur: State, kind: Kind, d: Disk, vol: Volatile)
    requires DiskInv(d) && InfoInv(cur.info, d) && KindInv(kind, cur.info, d, vol)
    requires kind == Cleanup(true) ==> cur.kind.AfterCommit?
    ensures GoodOutcome(Goto(cur, kind, d, vol))
  {
  }

  // ------------------------------------------------------------ the handlers

  /** What a handler may rely on. */
  predicate Ready(s: State, d: Disk, vol: Volatile) {
    && DiskInv(d) && StateInv(s, d, vol)
    && (s.kind == Cleanup(true) ==> CommitLeaveOk in d.history.facts)
  }

  lemma MilestonesKeepInv(s: State, d: Disk, vol: Volatile, facts: set<Fact>)
    requires Ready(s, d, vol) && forall f :: f in facts ==> Milestone(f)
    ensures Ready(s, AddFacts(d, facts), vol)
  {
    hide Recalled, OldState;
    assert forall f :: !Milestone(f) ==> (f in AddFacts(d, facts).history.facts <==> f in d.history.facts);
  }

  lemma StoreSupportKeepsInv(s: State, d: Disk, vol: Volatile, env: Env)
    requires StoreWorks(env) && s.kind.Store? && Ready(s, d, vol) && vol.installers == |s.info.payloadTypes|
    ensures GoodOutcome(StoreSupport(s, d, vol, env))
  {
    var (support, ok) := CollectSupport(s.info.supportsRollback, env.rollbackAnswers, 0, vol.installers);
    var info1 := s.info.(supportsRollback := support);
    assert InfoInv(info1, d);
    if ok {
      WriteKeepsInv(d, IdUpdateStore, info1, true);
      var (d1, r) := Put(d, IdUpdateStore, info1, true, NoFault);
      if !r.Stored? { StoreErrorKeepsInv(d1, State(UpdateError, info1), info1, r, vol); }
    }
  }

  lemma StoreHeadersKeepsInv(s: State, d: Disk, vol: Volatile, env: Env)
    requires StoreWorks(env) && s.kind.Store? && Ready(s, d, vol) && vol.installers == |s.info.payloadTypes|
    ensures GoodOutcome(StoreHeaders(s, d, vol, env))
  {
    hide StoreSupport, RecordInv, NameInv, CommittedNameInv, StoredInv;
    WriteKeepsInv(d, IdUpdateStore, s.info, true);
    var (d1, r) := Put(d, IdUpdateStore, s.info, true, NoFault);
    if !r.Stored? {
      StoreErrorKeepsInv(d1, State(Cleanup(false), s.info), s.info, r, vol);
    } else if env.stored {
      MilestonesKeepInv(s, d1, vol, DownloadFacts(env));
      StoreSupportKeepsInv(s, AddFacts(d1, DownloadFacts(env)), vol, env);
    }
  }

  lemma HandleStoreKeepsInv(s: State, d: Disk, vol: Volatile, env: Env)
    requires StoreWorks(env) && s.kind.Store? && Ready(s, d, vol)
    ensures GoodOutcome(HandleStore(s, d, vol, env))
  {
    if env.logger && !env.report.Fatal? && env.headers.Some? && env.headersMatch && env.dependsMet {
      var info2 := WithHeaders(s.info.(payloadTypes := env.headers.value), env);
      StoreHeadersKeepsInv(State(Store, info2), d, vol.(installers := |env.headers.value|), env);
    }
  }

  lemma StoreInstallKeepsInv(s: State, d: Disk, vol: Volatile, env: Env)
    requires StoreWorks(env) && s.kind.Install? && Ready(s, d, vol)
    ensures GoodOutcome(StoreInstall(s, d, vol, env))
  {
    WriteKeepsInv(d, IdUpdateInstall, s.info, true);
    var (d1, r) := Put(d, IdUpdateInstall, s.info, true, NoFault);
    if !r.Stored? {
      ErrorKeepsInv(s, d1, false, env, vol);
      var (d2, next) := HandleError(s, d1, false, env);
      StoreErrorKeepsInv(d2, next, s.info, r, vol);
    }
  }

  lemma HandleInstallKeepsInv(s: State, d: Disk, vol: Volatile, env: Env)
    requires StoreWorks(env) && s.kind.Install? && Ready(s, d, vol)
    ensures GoodOutcome(HandleInstall(s, d, vol, env))
  {
    hide StoreInstall, HandleError, StoredInv, NameInv, CommittedNameInv, GoodOutcome, InstallFacts;
    var d1 := AddFacts(d, InstallFacts(env, vol.installers));
    InstallFactsAreMilestones(env, vol.installers);
    MilestonesKeepInv(s, d, vol, InstallFacts(env, vol.installers));
    var (requested, ok) := CollectReboots(s.info.rebootRequested, env.rebootAnswers, 0, vol.installers);
    var s1 := State(Install, s.info.(rebootRequested := requested));
    assert InfoInv(s1.info, d1);
    GotoKeepsInv(s, UpdateError, d, vol);
    FailedKeepsInv(s, s, d, vol, true, env);
    FailedKeepsInv(s, s, d1, vol, false, env);
    FailedKeepsInv(s1, s1, d1, vol, false, env);
    StoreInstallKeepsInv(s1, d1, vol, env);
  }

  lemma InstallFactsAreMilestones(env: Env, count: nat)
    ensures forall f :: f in InstallFacts(env, count) ==> Milestone(f)
    ensures forall f :: f in VerifyFacts(env, count) ==> Milestone(f)
  {
  }

  lemma HandleVerifyRebootKeepsInv(s: State, d: Disk, vol: Volatile, env: Env)
    requires StoreWorks(env) && s.kind.VerifyReboot? && Ready(s, d, vol)
    ensures GoodOutcome(HandleVerifyReboot(s, d, vol, env))
  {
    hide HandleError, StoredInv, NameInv, CommittedNameInv, GoodOutcome, VerifyFacts;
    InstallFactsAreMilestones(env, vol.installers);
    MilestonesKeepInv(s, d, vol, VerifyFacts(env, vol.installers));
    var d1 := AddFacts(d, VerifyFacts(env, vol.installers));
    GotoKeepsInv(s, AfterReboot, d1, vol);
    FailedKeepsInv(s, s, d1, vol, false, env);
  }

  lemma HandleRebootKeepsInv(s: State, d: Disk, vol: Volatile, env: Env)
    requires StoreWorks(env) && s.kind.Reboot? && Ready(s, d, vol)
    ensures GoodOutcome(HandleReboot(s, d, vol, env))
  {
    hide ScanReboots, HandleError;
    FailedKeepsInv(s, s, d, vol, false, env);
    GotoKeepsInv(s, Rollback, d, vol);
    GotoKeepsInv(s, VerifyReboot, d, vol);
  }

  /** The disk right after the commit transaction. */
  lemma CommittedDisk(cfg: Config, s: State, d: Disk, vol: Volatile, env: Env)
    requires StoreWorks(env) && !s.info.schemaUpdate
    requires DiskInv(d) && s.info.artifactName == d.history.newName
    requires NameStored !in d.history.facts && AnyCommit(d.history.facts)
    ensures var o := StoreCommit(cfg, s, d, vol, env);
            && |o.cuts| == 2 && o.cuts[0] == d && o.cur == s && o.vol == vol
              && o.cuts[1].history.newName == d.history.newName
            && DiskInv(o.cuts[1]) && InfoInv(s.info, o.cuts[1])
            && NameStored in o.cuts[1].history.facts && o.cuts[1].history.facts >= d.history.facts
            && o.cuts[1].db.artifact.name == Some(o.cuts[1].history.newName)
            && (if o.next.kind.AfterFirstCommit? then o.disk == o.cuts[1] && o.next == State(AfterFirstCommit, s.info)
                else o.disk == SetBroken(o.cuts[1], s.info, true) && o.next == State(StatusReport(false, 0, 0), s.info))
  {
    hide KindInv;
  }

  lemma StoreCommitKeepsInv(cfg: Config, s: State, d: Disk, vol: Volatile, env: Env)
    requires StoreWorks(env) && s.kind.Commit? && !s.info.schemaUpdate
    requires DiskInv(d) && s.info.artifactName == d.history.newName
    requires NameStored !in d.history.facts && AnyCommit(d.history.facts) && FirstCommitted(s.info, d.history.facts)
    requires vol.installers == |s.info.payloadTypes|
    ensures GoodOutcome(StoreCommit(cfg, s, d, vol, env))
  {
    hide StoreCommit, DiskInv, InfoInv;
    CommittedDisk(cfg, s, d, vol, env);
    FlagKeepsInv(StoreCommit(cfg, s, d, vol, env).cuts[1], s.info);
  }

  lemma SentCommitKeepsInv(cfg: Config, s: State, d: Disk, vol: Volatile, env: Env)
    requires StoreWorks(env) && s.kind.Commit? && Ready(s, d, vol)
    ensures GoodOutcome(SentCommit(cfg, s, d, vol, env))
  {
    if env.report.Transient? {
      GotoKeepsInv(s, PreCommitRetry(s.kind.tries), d, vol);
    } else if env.report.Fatal? || (vol.installers > 0 && !Succeeds(env, 0)) {
      FailedKeepsInv(s, s, d, vol, env.report.Fatal?, env);
    } else {
      var d1 := AddFacts(d, {if vol.installers > 0 then Committed(0) else EmptyArtifact});
      assert DiskInv(d1);
      StoreCommitKeepsInv(cfg, State(s.kind, s.info.(schemaUpdate := false)), d1, vol, env);
    }
  }

  /** Counting one more send leaves everything the invariant speaks of as it is. */
  lemma CountedSendReady(s: State, d: Disk, vol: Volatile, tries: nat, attempts: nat)
    requires s.kind.Commit? && Ready(s, d, vol)
    ensures Ready(State(Commit(tries), s.info.(reportAttempts := attempts)), d, vol)
  {
  }

  lemma HandleCommitKeepsInv(cfg: Config, s: State, d: Disk, vol: Volatile, env: Env)
    requires StoreWorks(env) && s.kind.Commit? && Ready(s, d, vol)
    ensures GoodOutcome(HandleCommit(cfg, s, d, vol, env))
  {
    hide SentCommit;
    if !env.scriptsCompatible {
      FailedKeepsInv(s, s, d, vol, false, env);
    } else {
      var tries := s.kind.tries + 1;
      CountedSendReady(s, d, vol, tries, AttemptsAfter(tries, env.report));
      var s1 := State(Commit(tries), s.info.(reportAttempts := AttemptsAfter(tries, env.report)));
      SentCommitKeepsInv(cfg, s1, d, vol, env);
    }
  }

  lemma HandleAfterFirstCommitKeepsInv(s: State, d: Disk, vol: Volatile, env: Env)
    requires StoreWorks(env) && s.kind.AfterFirstCommit? && Ready(s, d, vol)
    ensures GoodOutcome(HandleAfterFirstCommit(s, d, vol, env))
  {
    var d1 := AddFacts(d, CommitFacts(env, 1, vol.installers));
    assert DiskInv(d1);
    assert InfoInv(s.info, d1);
    if forall n: nat :: 1 <= n < vol.installers ==> Succeeds(env, n) {
      GotoKeepsInv(s, AfterCommit, d1, vol);
    } else {
      FailedKeepsInv(s, s, d1, vol, false, env);
    }
  }

  lemma HandleCleanupKeepsInv(s: State, d: Disk, vol: Volatile, env: Env)
    requires StoreWorks(env) && s.kind.Cleanup? && Ready(s, d, vol)
    ensures GoodOutcome(HandleCleanup(s, d, vol, env))
  {
    hide StoredInv, NameInv, RecordInv, Recalled;
    CleanupFactKeepsInv(d);
  }

  lemma CleanupFactKeepsInv(d: Disk)
    requires DiskInv(d)
    ensures DiskInv(AddFacts(d, {CleanupOk})) && DiskInv(DropFacts(d, {CleanupOk}))
  {
  }

  lemma LoadKeepsInv(d: Disk)
    requires DiskInv(d)
    ensures !LoadStateData(d.db, NoFault).1.LoadFailed?
    ensures var (db, loaded) := LoadStateData(d.db, NoFault);
            loaded.Loaded? || loaded.LoadExceeded? ==>
              var d1 := d.(db := db);
              db.state.Some? && Recalled(db) == Some(loaded.record) && DiskInv(d1) && InfoInv(loaded.record.info, d1)
  {
  }

  predicate ResumesByDefault(name: StateId) {
    !PastCommitId(name) && !name.IdUpdateFetch? && !name.IdReboot? && !name.IdReportStatusError?
    && !name.IdUpdateStore? && !name.IdUpdateAfterStore? && !name.IdUpdateCleanup? && !name.IdUpdateError?
    && !name.IdRollbackReboot? && !name.IdVerifyRollbackReboot? && !name.IdAfterRollbackReboot?
    && !name.IdUpdateStatusReport? && !name.IdStatusReportRetry?
  }

  lemma ResumeKeepsInv(r: Record, d: Disk, vol: Volatile, env: Env)
    requires StoreWorks(env) && DiskInv(d) && d.db.state.Some? && Recalled(d.db) == Some(r) && InfoInv(r.info, d)
    requires vol.installers == |r.info.payloadTypes|
    requires PastCommitId(r.name) ==> CleanName(d)
    ensures var (d', next) := Resume(r, d, env);
            DiskInv(d') && StateInv(next, d', vol) && next.kind != Cleanup(true)
  {
    if r.name.IdUpdateFetch? {
      RemoveKeepsInv(d);
    } else if ResumesByDefault(r.name) {
      hide DiskInv, StateInv, InfoInv, DefaultError, Recalled;
      ResumedErrorKeepsInv(d, r.info, vol, env);
    } else {
      assert RecordInv(r, d.history);
      hide DiskInv, InfoInv, Recalled, DefaultError;
      ResumeDirectly(r, d, vol, env);
    }
  }

  lemma ResumeDirectly(r: Record, d: Disk, vol: Volatile, env: Env)
    requires RecordInv(r, d.history) && InfoInv(r.info, d) && vol.installers == |r.info.payloadTypes|
    requires !r.name.IdUpdateFetch? && !ResumesByDefault(r.name) && (PastCommitId(r.name) ==> CleanName(d))
    ensures var (d', next) := Resume(r, d, env);
            d' == d && StateInv(next, d, vol) && next.kind != Cleanup(true)
  {
    hide InfoInv, CleanName, FirstCommitted, AllCommitted, DefaultError;
  }

  lemma ResumedErrorKeepsInv(d: Disk, info: UpdateInfo, vol: Volatile, env: Env)
    requires StoreWorks(env) && DiskInv(d) && InfoInv(info, d)
    ensures var (d', next) := DefaultError(d, info, env);
            DiskInv(d') && StateInv(next, d', vol) && next.kind != Cleanup(true)
  {
    hide NameInv, CommittedNameInv, StoredInv, Recalled;
    FlagKeepsInv(d, info);
  }

  lemma RemoveKeepsInv(d: Disk)
    requires DiskInv(d)
    ensures DiskInv(RemoveRecord(d, true))
  {
  }

  lemma HandleInitKeepsInv(s: State, d: Disk, vol: Volatile, env: Env)
    requires StoreWorks(env) && DiskInv(d) && s.kind.Init?
    ensures GoodOutcome(HandleInit(s, d, vol, env))
  {
    LoadKeepsInv(d);
    var (db, loaded) := LoadStateData(d.db, NoFault);
    var d1 := d.(db := db);
    if loaded.LoadExceeded? {
      var d2 := LimitFires(d1);
      assert DiskInv(d2);
      FlagKeepsInv(d2, loaded.record.info);
    } else if loaded.Loaded? && env.restored {
      var r := loaded.record;
      var d2 := NoteResume(LimitSettled(d1), r);
      assert DiskInv(d2) && InfoInv(r.info, d2);
      ResumeKeepsInv(r, d2, vol.(installers := |r.info.payloadTypes|, failedReports := d.history.failedReports), env);
    }
  }

  lemma HandleFetchControlMapKeepsInv(s: State, d: Disk, vol: Volatile, env: Env)
    requires StoreWorks(env) && Ready(s, d, vol) && s.kind.FetchControlMap?
    ensures GoodOutcome(HandleFetchControlMap(s, d, vol, env))
  {
    if env.hasMap && env.refresh.Aborted? {
      FailedKeepsInv(s, State(Wrapped(s.kind.gate), s.info), d, vol, false, env);
    } else {
      var o := HandleFetchControlMap(s, d, vol, env);
      GotoKeepsInv(s, o.next.kind, d, o.vol);
    }
  }

  lemma HandleFetchRetryControlMapKeepsInv(cfg: Config, s: State, d: Disk, vol: Volatile, env: Env)
    requires StoreWorks(env) && Ready(s, d, vol) && s.kind.FetchRetryControlMap?
    ensures GoodOutcome(HandleFetchRetryControlMap(cfg, s, d, vol, env))
  {
    if GivesUp(cfg, vol.mapAttempts) {
      FailedKeepsInv(s, State(Wrapped(s.kind.gate), s.info), d, vol, false, env);
    } else {
      var o := HandleFetchRetryControlMap(cfg, s, d, vol, env);
      GotoKeepsInv(s, o.next.kind, d, o.vol);
    }
  }

  lemma HandleControlMapKeepsInv(s: State, d: Disk, vol: Volatile, env: Env)
    requires StoreWorks(env) && s.kind.ControlMap? && Ready(s, d, vol)
    ensures GoodOutcome(HandleControlMap(s, d, vol, env))
  {
    var gate := s.kind.gate;
    var told := vol.(pauseReported := vol.pauseReported + {gate});
    if env.action.Fail? {
      FailedKeepsInv(s, State(Wrapped(gate), s.info), d, vol, false, env);
    } else if env.action.Pause? && !s.kind.pauseState && gate !in vol.pauseReported && env.report.Fatal? {
      FailedKeepsInv(s, State(Wrapped(gate), s.info), d, told, true, env);
    } else {
      var o := HandleControlMap(s, d, vol, env);
      GotoKeepsInv(s, o.next.kind, d, o.vol);
    }
  }

  lemma HandleGateKeepsInv(cfg: Config, s: State, d: Disk, vol: Volatile, env: Env)
    requires StoreWorks(env) && Ready(s, d, vol) && s.kind.IsGate()
    ensures GoodOutcome(HandleGate(cfg, s, d, vol, env))
  {
    match s.kind
    case FetchControlMap(_, _) => HandleFetchControlMapKeepsInv(s, d, vol, env);
    case FetchRetryControlMap(_, _) => HandleFetchRetryControlMapKeepsInv(cfg, s, d, vol, env);
    case ControlMap(_, _) => HandleControlMapKeepsInv(s, d, vol, env);
    case ControlMapPause(_) =>
      var o := HandleControlMapPause(s, d, vol, env);
      GotoKeepsInv(s, o.next.kind, d, o.vol);
  }

  lemma HandleRollbackKeepsInv(s: State, d: Disk, vol: Volatile, env: Env)
    requires StoreWorks(env) && s.kind.Rollback? && Ready(s, d, vol)
    ensures GoodOutcome(HandleRollback(s, d, vol, env))
  {
    if !AllSucceed(env, vol.installers) { FailedKeepsInv(s, s, d, vol, true, env); }
  }

  lemma IdleKeepsInv(cur: State, d: Disk, vol: Volatile)
    requires DiskInv(d) && InfoInv(cur.info, d)
    ensures GoodOutcome(Done(cur, Polling(Idle), d, vol))
  {
  }

  lemma HandleStatusReportKeepsInv(s: State, d: Disk, vol: Volatile, env: Env)
    requires Ready(s, d, vol) && s.kind.StatusReport?
    ensures GoodOutcome(HandleStatusReport(s, d, vol, env))
  {
    var o := HandleStatusReport(s, d, vol, env);
    assert InfoInv(o.cur.info, d);
    assert s.kind.success ==> Earned(o.cur.info, d.history.facts);
    if o.next.kind.Idle? { IdleKeepsInv(o.cur, d, o.vol); } else { GotoKeepsInv(o.cur, o.next.kind, d, o.vol); }
  }

  lemma HandleStatusReportRetryKeepsInv(cfg: Config, s: State, d: Disk, vol: Volatile)
    requires Ready(s, d, vol) && s.kind.StatusReportRetry?
    ensures GoodOutcome(HandleStatusReportRetry(cfg, s, d, vol))
  {
    if s.kind.spent < MaxSends(cfg) {
      GotoKeepsInv(s, StatusReport(s.kind.success, s.kind.sends, s.kind.logSends), d, vol);
    } else {
      IdleKeepsInv(s, d, vol);
    }
  }

  lemma HandlePollingKeepsInv(s: State, d: Disk, vol: Volatile, env: Env)
    requires StoreWorks(env) && Ready(s, d, vol) && s.kind.IsPolling()
    ensures GoodOutcome(HandlePolling(s, d, vol, env))
  {
    if s.kind.Init? { HandleInitKeepsInv(s, d, vol, env); }
  }

  /** The states that end a deployment without asking the server or the payloads for more. */
  lemma PassingEndKeepsInv(cfg: Config, s: State, d: Disk, vol: Volatile, env: Env)
    requires StoreWorks(env) && Ready(s, d, vol)
    requires s.kind.RollbackReboot? || s.kind.VerifyRollbackReboot? || s.kind.AfterRollbackReboot?
        || s.kind.UpdateError?
    ensures GoodOutcome(HandleEnding(cfg, s, d, vol, env))
  {
    if s.kind.VerifyRollbackReboot? && !AllSucceed(env, vol.installers) {
      FailedKeepsInv(s, s, d, vol, false, env);
    } else {
      GotoKeepsInv(s, HandleEnding(cfg, s, d, vol, env).next.kind, d, vol);
    }
  }

  lemma HandleEndingKeepsInv(cfg: Config, s: State, d: Disk, vol: Volatile, env: Env)
    requires StoreWorks(env) && Ready(s, d, vol) && s.kind.IsEnding()
    ensures GoodOutcome(HandleEnding(cfg, s, d, vol, env))
  {
    hide GoodOutcome, Ready, HandleRollback, HandleVerifyRollbackReboot, HandleCleanup, HandleStatusReport,
        HandleStatusReportRetry;
    match s.kind
    case Rollback => HandleRollbackKeepsInv(s, d, vol, env);
    case Cleanup(_) => HandleCleanupKeepsInv(s, d, vol, env);
    case StatusReport(_, _, _) => HandleStatusReportKeepsInv(s, d, vol, env);
    case StatusReportRetry(_, _, _, _) => HandleStatusReportRetryKeepsInv(cfg, s, d, vol);
    case _ => PassingEndKeepsInv(cfg, s, d, vol, env);
  }

  lemma HandleForwardKeepsInv(cfg: Config, s: State, d: Disk, vol: Volatile, env: Env)
    requires StoreWorks(env) && Ready(s, d, vol) && !s.kind.IsPolling() && !s.kind.IsGate() && !s.kind.IsEnding()
    ensures GoodOutcome(HandleForward(cfg, s, d, vol, env))
  {
    hide HandleStore, HandleInstall, HandleReboot, HandleVerifyReboot, HandleCommit, HandleAfterFirstCommit;
    hide HandleError;
    match s.kind
    case Fetch =>
      var o := HandleFetch(s, d, vol, env);
      GotoKeepsInv(s, o.next.kind, d, vol);
    case FetchStoreRetry =>
      var o := HandleFetchStoreRetry(cfg, s, d, vol);
      GotoKeepsInv(s, o.next.kind, d, o.vol);
    case Store => HandleStoreKeepsInv(s, d, vol, env);
    case AfterStore => GotoKeepsInv(s, FetchControlMap(InstallGate, false), d, vol);
    case Install => HandleInstallKeepsInv(s, d, vol, env);
    case RebootPauseRequested => GotoKeepsInv(s, ControlMap(RebootGate, false), d, vol);
    case Reboot => HandleRebootKeepsInv(s, d, vol, env);
    case VerifyReboot => HandleVerifyRebootKeepsInv(s, d, vol, env);
    case AfterReboot => GotoKeepsInv(s, FetchControlMap(CommitGate, false), d, vol);
    case Commit(_) => HandleCommitKeepsInv(cfg, s, d, vol, env);
    case PreCommitRetry(tries) =>
      if tries < MaxSends(cfg) { GotoKeepsInv(s, Commit(tries), d, vol); }
      else { FailedKeepsInv(s, State(Commit(tries), s.info), d, vol, false, env); }
    case AfterFirstCommit => HandleAfterFirstCommitKeepsInv(s, d, vol, env);
    case AfterCommit => GotoKeepsInv(s, Cleanup(true), d, vol);
  }

  lemma HandleKeepsInv(cfg: Config, s: State, d: Disk, vol: Volatile, env: Env)
    requires StoreWorks(env) && Ready(s, d, vol)
    ensures GoodOutcome(Handle(cfg, s, d, vol, env))
  {
    if s.kind.IsPolling() { HandlePollingKeepsInv(s, d, vol, env); }
    else if s.kind.IsGate() { HandleGateKeepsInv(cfg, s, d, vol, env); }
    else if s.kind.IsEnding() { HandleEndingKeepsInv(cfg, s, d, vol, env); }
    else { HandleForwardKeepsInv(cfg, s, d, vol, env); }
  }

  // ----------------------------------------------------------- the whole step

  lemma StateMayBeStored(s: State, d: Disk, vol: Volatile)
    requires StateInv(s, d, vol) && s.kind.IsUpdateState()
    ensures RecordInv(Record(CURRENT_VERSION, s.kind.Id(), s.info), d.history)
    ensures s.kind.AfterFirstCommit? ==> NameStored in d.history.facts
  {
  }

  lemma StateKeptByWrite(s: State, d: Disk, d': Disk, vol: Volatile)
    requires StateInv(s, d, vol) && InfoInv(s.info, d') && s.kind.IsUpdateState()
    requires d'.db.artifact == d.db.artifact && d'.history.newName == d.history.newName
    requires d'.history.facts == d.history.facts || d'.history.facts == d.history.facts + {LimitHit}
    ensures StateInv(s, d', vol)
  {
  }

  lemma NoteStoredKeepsInv(d: Disk, s: State, vol: Volatile, r: StoreResult)
    requires DiskInv(d) && StateInv(s, d, vol) && s.kind.IsUpdateState()
    requires s.kind.AfterFirstCommit? ==> NameStored in d.history.facts
    ensures var d' := NoteStored(d, s.kind, vol, r);
            DiskInv(d') && StateInv(s, d', vol) && d'.db == d.db && d'.history.newName == d.history.newName
            && d'.history.facts >= d.history.facts
  {
  }

  lemma StoreNewStateKeepsInv(m: Machine, env: Env)
    requires StoreWorks(env) && Inv(m) && m.to.kind.IsUpdateState()
    ensures var (d, r) := StoreNewState(m, env);
            && DiskInv(d) && StateInv(m.to, d, m.vol) && d.history.facts >= m.disk.history.facts
  {
    hide KindInv, RecordInv, NameInv, CommittedNameInv, StoredInv, InfoInv, NoteStored;
    StateMayBeStored(m.to, m.disk, m.vol);
    var counted := Counted(m.cur.kind, m.to.kind);
    WriteKeepsInv(m.disk, m.to.kind.Id(), m.to.info, counted);
    var (d, r) := Put(m.disk, m.to.kind.Id(), m.to.info, counted, NoFault);
    StateKeptByWrite(m.to, m.disk, d, m.vol);
    NoteStoredKeepsInv(d, m.to, m.vol, r);
  }

  lemma EnterStateKeepsInv(cfg: Config, m: Machine, env: Env)
    requires StoreWorks(env) && Inv(m)
    requires m.to.kind == Cleanup(true) ==> CommitLeaveOk in m.disk.history.facts
    ensures GoodOutcome(EnterState(cfg, m, env))
  {
    hide EnterAndHandle, HandleError, Put, NoteStored, DiskInv;
    if m.to.kind.IsUpdateState() {
      StoreNewStateKeepsInv(m, env);
      var (d, r) := StoreNewState(m, env);
      if !r.Stored? {
        ErrorKeepsInv(m.to, d, true, env, m.vol);
        var (d1, next) := HandleError(m.to, d, true, env);
        StoreErrorKeepsInv(d1, next, m.to.info, r, m.vol);
      } else {
        EnterAndHandleKeepsInv(cfg, m, d, env);
      }
    } else {
      EnterAndHandleKeepsInv(cfg, m, m.disk, env);
    }
  }

  lemma EnterAndHandleKeepsInv(cfg: Config, m: Machine, d: Disk, env: Env)
    requires StoreWorks(env) && Ready(m.to, d, m.vol)
    ensures GoodOutcome(EnterAndHandle(cfg, m, d, env))
  {
    hide Handle;
    if EnterPasses(m.cur.kind, m.to.kind, env) {
      HandleKeepsInv(cfg, m.to, d, m.vol, env);
    } else {
      FailedKeepsInv(m.to, m.to, d, m.vol, false, env);
    }
  }

  lemma LeftKeepsInv(m: Machine)
    requires Inv(m)
    ensures Inv(Left(m))
    ensures m.to.kind == Cleanup(true) ==> CommitLeaveOk in Left(m).disk.history.facts
  {
  }

  lemma TransitionKeepsInv(cfg: Config, m: Machine, env: Env)
    requires StoreWorks(env) && Inv(m)
    ensures GoodOutcome(TransitionState(cfg, m, env))
  {
    hide EnterState;
    if LeavePasses(m.cur.kind, m.to.kind, env) {
      LeftKeepsInv(m);
      EnterStateKeepsInv(cfg, Left(m), env);
    } else {
      FailedKeepsInv(m.cur, m.cur, m.disk, m.vol, false, env);
    }
  }

  lemma RecountKeepsInv(d: Disk, d': Disk)
    requires DiskInv(d) && Recounted(d, d') && d'.history.bootName == d.history.bootName
    requires d'.db.artifact == d.db.artifact
    ensures DiskInv(d')
  {
    hide Recalled, OldState;
  }

  lemma RecountKeepsInfo(d: Disk, d': Disk)
    requires Recounted(d, d')
    ensures forall i :: InfoInv(i, d) ==> InfoInv(i, d')
  {
    hide Recalled;
  }

  /** The bootstrap gives a name only to a device that has none, and so to none that has been committed. */
  lemma BootstrapKeepsInv(d: Disk, env: Env)
    requires StoreWorks(env) && DiskInv(d)
    ensures DiskInv(CountedAtStart(d, env)) && DiskInv(Bootstrap(d, env))
    ensures forall i :: InfoInv(i, d) ==> InfoInv(i, Bootstrap(d, env))
  {
    hide CountedAtStart, LoadProvides, LoadStateData, Recalled, OldState, InfoInv;
    LoadRecounts(d, env);
    BootstrapRecounts(d, env);
    CountKeepsHistory(d, env);
    RecountKeepsInv(d, CountedAtStart(d, env));
    RecountKeepsInfo(d, Bootstrap(d, env));
    if d.db.artifact.name.Some? { NamedProvides(d.db.artifact); }
  }

  lemma CountKeepsHistory(d: Disk, env: Env)
    ensures CountedAtStart(d, env).history.bootName == d.history.bootName
  {
  }

  lemma StartedKeepsInv(m: Machine, env: Env)
    requires StoreWorks(env) && Inv(m)
    ensures Inv(Started(m, env)) && forall i :: 0 <= i < |StartCuts(m, env)| ==> DiskInv(StartCuts(m, env)[i])
  {
    hide Bootstrap, CountedAtStart, DiskInv, InfoInv;
    BootstrapKeepsInv(m.disk, env);
  }

  lemma NextKeepsInv(cfg: Config, m: Machine, c: Choice)
    requires Works(c) && Inv(m)
    ensures Inv(Next(cfg, m, c))
  {
    hide TransitionState, Started, StartCuts, DiskInv, InfoInv, KindInv;
    StartedKeepsInv(m, c.env);
    TransitionKeepsInv(cfg, Started(m, c.env), c.env);
    if c.PowerLoss? { BootHasInv(At(Cuts(cfg, m, c.env), c.cut, m.disk)); }
  }

  lemma BootHasInv(d: Disk)
    requires DiskInv(d)
    ensures Inv(Boot(d))
  {
  }

  /** Every run with power losses anywhere keeps the invariant. */
  lemma {:induction false} RunKeepsInv(cfg: Config, m: Machine, choices: seq<Choice>)
    requires Inv(m) && forall c :: c in choices ==> Works(c)
    ensures Inv(RunAll(cfg, m, choices))
    decreases |choices|
  {
    if choices != [] {
      NextKeepsInv(cfg, m, choices[0]);
      RunKeepsInv(cfg, Next(cfg, m, choices[0]), choices[1..]);
    }
  }
}
