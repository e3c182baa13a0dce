/**
 What a restart recovers from: in every run the stored record carries the id of the
 update state the daemon is in, and a record of the old schema is not touched before
 the commit transaction.
 */
module Recovery {
  import opened Wrappers
  import opened StateData
  import opened Datastore
  import opened UpdateStates
  import opened Daemon
  import opened Invariants
  import opened Starts
  import opened Outcomes

  predicate Names(db: Db, id: StateId) { Recalled(db).Some? && Recalled(db).value.name == id }

  /** The old record is there as it was, unless the commit transaction has gone through. */
  predicate OldKept(d: Disk, d': Disk) {
    OldState(d.db) ==> d'.db.state == d.db.state || NameStored in d'.history.facts
  }

  predicate SameRecord(d: Disk, d': Disk) {
    d'.db.state == d.db.state && d'.db.uncommitted == d.db.uncommitted
  }

  predicate Leaves(id: StateId, d: Disk, d': Disk) { Names(d'.db, id) && OldKept(d, d') }

  predicate LeavesAll(id: StateId, d: Disk, o: Outcome) {
    Leaves(id, d, o.disk) && forall i :: 0 <= i < |o.cuts| ==> Leaves(id, d, o.cuts[i])
  }

  lemma PutNames(d: Disk, id: StateId, info: UpdateInfo, increment: bool)
    requires InfoInv(info, d)
    ensures var d' := Put(d, id, info, increment, NoFault).0;
            Names(d'.db, id) && (OldState(d.db) ==> d'.db.state == d.db.state) && InfoInv(info, d')
  {
  }

  lemma SameRecordLeaves(id: StateId, d: Disk, d': Disk)
    requires SameRecord(d, d') && Names(d.db, id)
    ensures Leaves(id, d, d')
  {
  }

  // -------------------------------------------------------------- handlers

  lemma HandleErrorSameRecord(s: State, d: Disk, fatal: bool, env: Env)
    ensures SameRecord(d, HandleError(s, d, fatal, env).0)
  {
  }

  lemma HandleStoreNames(s: State, d: Disk, vol: Volatile, env: Env)
    requires StoreWorks(env) && InfoInv(s.info, d) && !s.info.schemaUpdate && Names(d.db, IdUpdateStore)
    ensures LeavesAll(IdUpdateStore, d, HandleStore(s, d, vol, env))
  {
    hide StoreStateData, CollectSupport;
    if env.headers.Some? {
      var info1 := WithHeaders(s.info.(payloadTypes := env.headers.value), env);
      PutNames(d, IdUpdateStore, info1, true);
      var d1 := Put(d, IdUpdateStore, info1, true, NoFault).0;
      var (support, ok) := CollectSupport(info1.supportsRollback, env.rollbackAnswers, 0, |env.headers.value|);
      PutNames(d1, IdUpdateStore, info1.(supportsRollback := support), true);
    }
  }

  lemma HandleInstallNames(s: State, d: Disk, vol: Volatile, env: Env)
    requires StoreWorks(env) && InfoInv(s.info, d) && Names(d.db, IdUpdateInstall)
    ensures LeavesAll(IdUpdateInstall, d, HandleInstall(s, d, vol, env))
  {
    hide StoreStateData, CollectReboots, HandleError, InstallFacts;
    HandleErrorSameRecord(s, d, true, env);
    var d0 := AddFacts(d, InstallFacts(env, vol.installers));
    HandleErrorSameRecord(s, d0, false, env);
    var (requested, ok) := CollectReboots(s.info.rebootRequested, env.rebootAnswers, 0, vol.installers);
    var s1 := State(Install, s.info.(rebootRequested := requested));
    HandleErrorSameRecord(s1, d0, false, env);
    PutNames(d0, IdUpdateInstall, s1.info, true);
    var d1 := Put(d0, IdUpdateInstall, s1.info, true, NoFault).0;
    HandleErrorSameRecord(s1, d1, false, env);
    SameRecordLeaves(IdUpdateInstall, d1, HandleError(s1, d1, false, env).0);
  }

  lemma HandleCommitNames(cfg: Config, s: State, d: Disk, vol: Volatile, env: Env)
    requires StoreWorks(env) && s.kind.Commit? && InfoInv(s.info, d) && Names(d.db, IdUpdateCommit)
    ensures LeavesAll(IdUpdateCommit, d, HandleCommit(cfg, s, d, vol, env))
  {
    hide HandleError, CommittedArtifact, OldState;
    HandleErrorSameRecord(s, d, false, env);
    var tries := s.kind.tries + 1;
    var s1 := State(Commit(tries), s.info.(reportAttempts := AttemptsAfter(tries, env.report)));
    HandleErrorSameRecord(s1, d, false, env);
    HandleErrorSameRecord(s1, d, true, env);
  }

  lemma PlainHandlerSameRecord(cfg: Config, s: State, d: Disk, vol: Volatile, env: Env)
    requires !s.kind.IsPolling() && !s.kind.Store? && !s.kind.Install? && !s.kind.Commit?
    ensures var o := Handle(cfg, s, d, vol, env);
            SameRecord(d, o.disk) && o.cuts == []
  {
    hide GivesUp, MaxSends, QueryReboots, ScanReboots;
  }

  lemma HandlerNames(cfg: Config, s: State, d: Disk, vol: Volatile, env: Env)
    requires StoreWorks(env) && s.kind.IsUpdateState() && InfoInv(s.info, d) && KindInv(s.kind, s.info, d, vol)
    requires Names(d.db, s.kind.Id())
    ensures var o := Handle(cfg, s, d, vol, env);
            o.cur.kind.Id() == s.kind.Id() && LeavesAll(s.kind.Id(), d, o)
  {
    HandlerKeepsId(cfg, s, d, vol, env);
    hide HandleStore, HandleInstall, HandleCommit, HandleEnding, HandleGate, Recalled, InfoInv, OldState;
    if s.kind.Store? { HandleStoreNames(s, d, vol, env); }
    else if s.kind.Install? { HandleInstallNames(s, d, vol, env); }
    else if s.kind.Commit? { HandleCommitNames(cfg, s, d, vol, env); }
    else {
      PlainHandlerSameRecord(cfg, s, d, vol, env);
    }
  }

  lemma HandlerKeepsId(cfg: Config, s: State, d: Disk, vol: Volatile, env: Env)
    requires s.kind.IsUpdateState()
    ensures Handle(cfg, s, d, vol, env).cur.kind.Id() == s.kind.Id()
  {
    hide HandleEnding, HandleStore, HandleInstall, HandleCommit, HandleReboot;
    if s.kind.IsEnding() { EndingKeepsId(cfg, s, d, vol, env); }
    else if s.kind.Store? || s.kind.Install? || s.kind.Reboot? { ForwardKeepsId(s, d, vol, env); }
    else if s.kind.Commit? { CommitKeepsId(cfg, s, d, vol, env); }
  }

  lemma EndingKeepsId(cfg: Config, s: State, d: Disk, vol: Volatile, env: Env)
    requires s.kind.IsEnding()
    ensures HandleEnding(cfg, s, d, vol, env).cur.kind.Id() == s.kind.Id()
  {
    hide MaxSends, QueryReboots, WantsReboot, HandleError, HandleCleanup, HandleStatusReport;
    if s.kind.Cleanup? { CleanupKeepsId(s, d, vol, env); }
    if s.kind.StatusReport? { ReportKeepsId(s, d, vol, env); }
  }

  lemma CleanupKeepsId(s: State, d: Disk, vol: Volatile, env: Env)
    requires s.kind.Cleanup?
    ensures HandleCleanup(s, d, vol, env).cur.kind.Cleanup?
  {
  }

  lemma ReportKeepsId(s: State, d: Disk, vol: Volatile, env: Env)
    requires s.kind.StatusReport?
    ensures HandleStatusReport(s, d, vol, env).cur.kind.StatusReport?
  {
  }

  lemma ForwardKeepsId(s: State, d: Disk, vol: Volatile, env: Env)
    ensures s.kind.Store? ==> HandleStore(s, d, vol, env).cur.kind.Store?
    ensures s.kind.Install? ==> HandleInstall(s, d, vol, env).cur.kind.Install?
    ensures s.kind.Reboot? ==> HandleReboot(s, d, vol, env).cur.kind.Reboot?
  {
    hide ScanReboots, CollectReboots, CollectSupport, StoreStateData, HandleError;
  }

  lemma CommitKeepsId(cfg: Config, s: State, d: Disk, vol: Volatile, env: Env)
    requires s.kind.Commit?
    ensures HandleCommit(cfg, s, d, vol, env).cur.kind.Commit?
  {
    hide StoreStateDataAndTransaction, HandleError;
  }

  lemma WaitingHandlerSameRecord(cfg: Config, s: State, d: Disk, vol: Volatile, env: Env)
    requires !s.kind.IsPolling() && !s.kind.IsUpdateState()
    ensures var o := Handle(cfg, s, d, vol, env);
            SameRecord(d, o.disk) && o.cuts == [] && !o.cur.kind.IsUpdateState()
  {
    hide GivesUp, MaxSends, HandleError;
    HandleErrorSameRecord(if s.kind.IsGate() then State(Wrapped(s.kind.gate), s.info) else s, d, false, env);
    HandleErrorSameRecord(if s.kind.IsGate() then State(Wrapped(s.kind.gate), s.info) else s, d, true, env);
    if s.kind.PreCommitRetry? { HandleErrorSameRecord(State(Commit(s.kind.tries), s.info), d, false, env); }
  }

  /** Between two deployments a record can be removed, and a boot counts it; nothing else. */
  predicate PollingLeaves(d: Disk, d': Disk) {
    OldState(d.db) ==> d'.db.state == d.db.state || d'.db.state.None?
  }

  lemma PollingHandlerLeaves(s: State, d: Disk, vol: Volatile, env: Env)
    requires StoreWorks(env) && s.kind.IsPolling()
    ensures var o := HandlePolling(s, d, vol, env);
            && !o.cur.kind.IsUpdateState() && PollingLeaves(d, o.disk)
            && forall i :: 0 <= i < |o.cuts| ==> PollingLeaves(d, o.cuts[i])
  {
    hide Resume;
    if s.kind.Init? {
      var (db, loaded) := LoadStateData(d.db, NoFault);
      if loaded.Loaded? { ResumeLeaves(loaded.record, NoteResume(LimitSettled(d.(db := db)), loaded.record), env); }
    }
  }

  lemma ResumeLeaves(r: Record, d: Disk, env: Env)
    ensures var d' := Resume(r, d, env).0; SameRecord(d, d') || d'.db.state.None?
  {
  }

  // ------------------------------------------------------------- whole steps

  predicate StepKeeps(d: Disk, d': Disk) { OldKept(d, d') || d'.db.state.None? }

  predicate NamesCur(m: Machine) { m.cur.kind.IsUpdateState() ==> Names(m.disk.db, m.cur.kind.Id()) }

  /** The outcome of a step: the record names the state that was entered, at every point of power loss too. */
  predicate Recorded(m: Machine, d: Disk, o: Outcome) {
    && (o.cur.kind.IsUpdateState() ==> Names(o.disk.db, o.cur.kind.Id()))
    && StepKeeps(d, o.disk)
    && forall i :: 0 <= i < |o.cuts| ==>
         StepKeeps(d, o.cuts[i]) && (m.to.kind.IsUpdateState() ==> Names(o.cuts[i].db, m.to.kind.Id()))
  }

  lemma StoreNamesNewState(m: Machine, env: Env)
    requires StoreWorks(env) && Inv(m) && m.to.kind.IsUpdateState()
    ensures var d := StoreNewState(m, env).0;
            Names(d.db, m.to.kind.Id()) && (OldState(m.disk.db) ==> d.db.state == m.disk.db.state)
  {
    hide DiskInv, KindInv, StoreStateData, Recalled;
    PutNames(m.disk, m.to.kind.Id(), m.to.info, Counted(m.cur.kind, m.to.kind));
    var (d, r) := Put(m.disk, m.to.kind.Id(), m.to.info, Counted(m.cur.kind, m.to.kind), NoFault);
    NamesByDb(d, m, r);
  }

  lemma NamesByDb(d: Disk, m: Machine, r: StoreResult)
    ensures NoteStored(d, m.to.kind, m.vol, r).db == d.db
  {
  }

  lemma EnterAndHandleRecorded(cfg: Config, m: Machine, d: Disk, env: Env)
    requires StoreWorks(env) && m.to.kind.IsUpdateState()
    requires InfoInv(m.to.info, d) && KindInv(m.to.kind, m.to.info, d, m.vol)
    requires Names(d.db, m.to.kind.Id()) && (OldState(m.disk.db) ==> d.db.state == m.disk.db.state)
    ensures Recorded(m, m.disk, EnterAndHandle(cfg, m, d, env))
  {
    hide Handle, HandleError, KindInv, InfoInv;
    if EnterPasses(m.cur.kind, m.to.kind, env) { HandlerNames(cfg, m.to, d, m.vol, env); }
    else { HandleErrorSameRecord(m.to, d, false, env); }
  }

  lemma EnterStateRecorded(cfg: Config, m: Machine, env: Env)
    requires StoreWorks(env) && Inv(m)
    ensures Recorded(m, m.disk, EnterState(cfg, m, env))
  {
    hide Handle, HandleError, EnterAndHandle, StoreNewState, KindInv, InfoInv, DiskInv, Recalled, OldState;
    if m.to.kind.IsUpdateState() {
      StoreNewStateKeepsInv(m, env);
      StoreNamesNewState(m, env);
      var (d, r) := StoreNewState(m, env);
      if !r.Stored? { LimitRecorded(m, d, r, env); }
      else { EnterAndHandleRecorded(cfg, m, d, env); }
    } else {
      EnterOtherRecorded(cfg, m, env);
    }
  }

  lemma LimitRecorded(m: Machine, d: Disk, r: StoreResult, env: Env)
    requires m.to.kind.IsUpdateState()
    requires Names(d.db, m.to.kind.Id()) && (OldState(m.disk.db) ==> d.db.state == m.disk.db.state)
    ensures var (d1, next) := HandleError(m.to, d, true, env);
            var (d2, next2) := AfterStoreError(d1, next, m.to.info, r, env.flagOk);
            Recorded(m, m.disk, Outcome(m.to, next2, d2, m.vol, [d, d1]))
  {
    hide HandleError;
    HandleErrorSameRecord(m.to, d, true, env);
  }

  lemma EnterOtherRecorded(cfg: Config, m: Machine, env: Env)
    requires StoreWorks(env) && !m.to.kind.IsUpdateState()
    ensures Recorded(m, m.disk, EnterAndHandle(cfg, m, m.disk, env))
  {
    hide HandlePolling, HandleGate, HandleEnding, HandleForward, HandleError;
    if !EnterPasses(m.cur.kind, m.to.kind, env) { HandleErrorSameRecord(m.to, m.disk, false, env); }
    else if m.to.kind.IsPolling() { PollingHandlerLeaves(m.to, m.disk, m.vol, env); }
    else { WaitingHandlerSameRecord(cfg, m.to, m.disk, m.vol, env); }
  }

  lemma TransitionRecorded(cfg: Config, m: Machine, env: Env)
    requires StoreWorks(env) && Inv(m) && NamesCur(m)
    ensures Recorded(m, m.disk, TransitionState(cfg, m, env))
  {
    hide EnterState, HandleError, DiskInv, KindInv, InfoInv;
    if LeavePasses(m.cur.kind, m.to.kind, env) {
      LeftKeepsInv(m);
      EnterStateRecorded(cfg, Left(m), env);
      LeftSameDb(cfg, m, env);
    } else {
      HandleErrorSameRecord(m.cur, m.disk, false, env);
    }
  }

  lemma LeftSameDb(cfg: Config, m: Machine, env: Env)
    ensures Left(m).disk.db == m.disk.db && Left(m).to == m.to
  {
  }

  lemma NextRecorded(cfg: Config, m: Machine, c: Choice)
    requires Works(c) && Inv(m) && NamesCur(m)
    ensures NamesCur(Next(cfg, m, c)) && StepKeeps(m.disk, Next(cfg, m, c).disk)
    ensures c.PowerLoss? && m.to.kind.IsUpdateState() && 0 < c.cut < |Cuts(cfg, m, c.env)| ==>
              Names(Next(cfg, m, c).disk.db, m.to.kind.Id())
  {
    hide TransitionState, Inv, Recalled, OldState, Started, StartCuts;
    StartedKeepsInv(m, c.env);
    StartedRecorded(m, c.env);
    TransitionRecorded(cfg, Started(m, c.env), c.env);
    NextEnters(cfg, m, c);
  }

  lemma StartedRecorded(m: Machine, env: Env)
    requires StoreWorks(env) && NamesCur(m)
    ensures NamesCur(Started(m, env)) && Started(m, env).to == m.to && Started(m, env).cur == m.cur
    ensures forall i :: 0 <= i < |StartCuts(m, env)| ==> StepKeeps(m.disk, StartCuts(m, env)[i])
    ensures forall d :: StepKeeps(Started(m, env).disk, d) ==> StepKeeps(m.disk, d)
    ensures m.to.kind.IsUpdateState() ==> StartCuts(m, env) == [m.disk]
  {
    hide Recalled, CountedAtStart, Bootstrap, BelowLimit, OldState;
    LoadRecounts(m.disk, env);
    BootstrapRecounts(m.disk, env);
  }

  lemma NextEnters(cfg: Config, m: Machine, c: Choice)
    ensures var o := TransitionState(cfg, Started(m, c.env), c.env);
            && (c.Go? && !Exited(m) ==> Next(cfg, m, c) == Machine(o.cur, o.next, o.disk, o.vol))
            && (c.Go? && Exited(m) ==> Next(cfg, m, c) == m)
            && (c.PowerLoss? ==> Next(cfg, m, c) == Boot(At(Cuts(cfg, m, c.env), c.cut, m.disk)))
            && (c.PowerLoss? ==> NamesCur(Next(cfg, m, c)))
  {
    hide TransitionState, Started, StartCuts;
  }

  // ------------------------------------------------ the last update state entered

  /** From the polling states only an update state is entered, and only a boot enters Init. */
  predicate CameFrom(m: Machine) { Follows(m.cur.kind, m.to.kind) }

  predicate Follows(from: Kind, to: Kind) {
    if from.IsPolling() then to.IsPolling() || to.IsUpdateState() else !to.Init?
  }

  lemma ErrorFollows(s: State, d: Disk, fatal: bool, env: Env)
    ensures var next := HandleError(s, d, fatal, env).1.kind; Follows(s.kind, next) && !next.Init?
  {
  }

  lemma ResumeFollows(r: Record, d: Disk, env: Env)
    ensures Follows(Init, Resume(r, d, env).1.kind)
  {
  }

  lemma InitFollows(s: State, d: Disk, vol: Volatile, env: Env)
    ensures var o := HandleInit(s, d, vol, env); o.cur == s && Follows(Init, o.next.kind)
  {
    hide LoadStateData, Resume, NoteResume, SetBroken;
    var (db, loaded) := LoadStateData(d.db, env.loadFault);
    if loaded.Loaded? {
      ResumeFollows(loaded.record, NoteResume(LimitSettled(d.(db := db)), loaded.record), env);
    }
  }

  lemma PollingFollows(s: State, d: Disk, vol: Volatile, env: Env)
    requires s.kind.IsPolling()
    ensures var o := HandlePolling(s, d, vol, env); o.cur == s && Follows(s.kind, o.next.kind)
    ensures !s.kind.Init? ==> HandlePolling(s, d, vol, env).cuts == []
  {
    hide HandleInit, RemoveRecord;
    InitFollows(s, d, vol, env);
  }

  lemma GateFollows(cfg: Config, s: State, d: Disk, vol: Volatile, env: Env)
    requires s.kind.IsGate()
    ensures !HandleGate(cfg, s, d, vol, env).next.kind.Init?
  {
    hide HandleError, GivesUp;
    forall s: State, d: Disk, fatal: bool { ErrorFollows(s, d, fatal, env); }
  }

  lemma EndingFollows(cfg: Config, s: State, d: Disk, vol: Volatile, env: Env)
    requires s.kind.IsEnding()
    ensures !HandleEnding(cfg, s, d, vol, env).next.kind.Init?
  {
    hide HandleError, QueryReboots, WantsReboot, MaxSends;
    forall s: State, d: Disk, fatal: bool { ErrorFollows(s, d, fatal, env); }
  }

  lemma ForwardFollows(cfg: Config, s: State, d: Disk, vol: Volatile, env: Env)
    requires !s.kind.IsPolling() && !s.kind.IsGate() && !s.kind.IsEnding()
    ensures !HandleForward(cfg, s, d, vol, env).next.kind.Init?
  {
    hide HandleError, HandleStore, HandleInstall, HandleCommit, GivesUp, ScanReboots, MaxSends;
    forall s: State, d: Disk, fatal: bool { ErrorFollows(s, d, fatal, env); }
    if s.kind.Store? { StoreFollows(s, d, vol, env); }
    if s.kind.Install? { InstallFollows(s, d, vol, env); }
    if s.kind.Commit? { CommitFollows(cfg, s, d, vol, env); }
  }

  lemma StoreFollows(s: State, d: Disk, vol: Volatile, env: Env)
    ensures !HandleStore(s, d, vol, env).next.kind.Init?
  {
    hide Put, CollectSupport, SetBroken;
  }

  lemma InstallFollows(s: State, d: Disk, vol: Volatile, env: Env)
    requires s.kind.Install?
    ensures !HandleInstall(s, d, vol, env).next.kind.Init?
  {
    hide Put, CollectReboots, SetBroken, HandleError, Follows, InstallFacts;
    var (requested, ok) := CollectReboots(s.info.rebootRequested, env.rebootAnswers, 0, vol.installers);
    var s1 := State(Install, s.info.(rebootRequested := requested));
    var d1 := AddFacts(d, InstallFacts(env, vol.installers));
    ErrorFollows(s, d, true, env);
    ErrorFollows(s, d1, false, env);
    ErrorFollows(s1, d1, false, env);
    ErrorFollows(s1, Put(d1, IdUpdateInstall, s1.info, true, env.handlerFault).0, false, env);
  }

  lemma CommitFollows(cfg: Config, s: State, d: Disk, vol: Volatile, env: Env)
    requires s.kind.Commit?
    ensures !HandleCommit(cfg, s, d, vol, env).next.kind.Init?
  {
    hide StoreStateDataAndTransaction, SetBroken, HandleError;
    forall s: State, d: Disk, fatal: bool { ErrorFollows(s, d, fatal, env); }
  }

  lemma HandleFollows(cfg: Config, s: State, d: Disk, vol: Volatile, env: Env)
    requires !s.kind.IsPolling()
    ensures !Handle(cfg, s, d, vol, env).next.kind.Init?
  {
    hide HandleGate, HandleEnding, HandleForward;
    if s.kind.IsGate() { GateFollows(cfg, s, d, vol, env); }
    else if s.kind.IsEnding() { EndingFollows(cfg, s, d, vol, env); }
    else { ForwardFollows(cfg, s, d, vol, env); }
  }

  lemma HandlerKeepsPolling(cfg: Config, s: State, d: Disk, vol: Volatile, env: Env)
    requires !s.kind.IsPolling()
    ensures !Handle(cfg, s, d, vol, env).cur.kind.IsPolling()
  {
    hide Handle;
    if s.kind.IsUpdateState() { HandlerKeepsId(cfg, s, d, vol, env); }
    else { WaitingKeepsCur(cfg, s, d, vol, env); }
  }

  lemma WaitingKeepsCur(cfg: Config, s: State, d: Disk, vol: Volatile, env: Env)
    requires !s.kind.IsPolling() && !s.kind.IsUpdateState()
    ensures Handle(cfg, s, d, vol, env).cur == s
  {
    hide GivesUp, MaxSends, HandleError;
  }

  lemma EnterFollows(cfg: Config, m: Machine, d: Disk, env: Env)
    ensures var o := EnterAndHandle(cfg, m, d, env); Follows(o.cur.kind, o.next.kind)
  {
    hide Handle, HandleError, HandlePolling;
    ErrorFollows(m.to, d, false, env);
    if EnterPasses(m.cur.kind, m.to.kind, env) {
      if m.to.kind.IsPolling() {
        PollingFollows(m.to, d, m.vol, env);
        HandlesPolling(cfg, m.to, d, m.vol, env);
      } else {
        HandleFollows(cfg, m.to, d, m.vol, env);
        HandlerKeepsPolling(cfg, m.to, d, m.vol, env);
      }
    }
  }

  lemma HandlesPolling(cfg: Config, s: State, d: Disk, vol: Volatile, env: Env)
    requires s.kind.IsPolling()
    ensures Handle(cfg, s, d, vol, env) == HandlePolling(s, d, vol, env)
  {
    hide HandlePolling;
  }

  lemma EnterStateFollows(cfg: Config, m: Machine, env: Env)
    ensures var o := EnterState(cfg, m, env); Follows(o.cur.kind, o.next.kind)
  {
    hide EnterAndHandle, HandleError, StoreNewState, SetBroken;
    var d := if m.to.kind.IsUpdateState() then StoreNewState(m, env).0 else m.disk;
    ErrorFollows(m.to, d, true, env);
    EnterFollows(cfg, m, d, env);
  }

  lemma TransitionFollows(cfg: Config, m: Machine, env: Env)
    ensures var o := TransitionState(cfg, m, env); Follows(o.cur.kind, o.next.kind)
  {
    hide EnterState, HandleError, Follows;
    ErrorFollows(m.cur, m.disk, false, env);
    EnterStateFollows(cfg, Left(m), env);
  }

  /** A waiting state is entered, or stopped, without touching the record. */
  lemma WaitingKeepsRecord(cfg: Config, m: Machine, env: Env)
    requires !m.to.kind.IsUpdateState() && !m.cur.kind.IsPolling() && CameFrom(m)
    ensures var o := TransitionState(cfg, m, env);
            o.cuts == [] && (!o.cur.kind.IsPolling() ==> SameRecord(m.disk, o.disk))
  {
    hide Handle, HandleError, HandlePolling;
    HandleErrorSameRecord(m.cur, m.disk, false, env);
    var d := Left(m).disk;
    HandleErrorSameRecord(m.to, d, false, env);
    if m.to.kind.IsPolling() {
      PollingFollows(m.to, d, m.vol, env);
      HandlesPolling(cfg, m.to, d, m.vol, env);
    } else {
      WaitingHandlerSameRecord(cfg, m.to, d, m.vol, env);
    }
  }

  /** The id of the last update state that this run has entered. */
  function LastEntered(cfg: Config, m: Machine, choices: seq<Choice>, last: StateId): StateId
    decreases |choices|
  {
    if choices == [] then last
    else var m' := Next(cfg, m, choices[0]); LastEntered(cfg, m', choices[1..], EnteredBy(m', last))
  }

  function EnteredBy(m: Machine, last: StateId): StateId {
    if m.cur.kind.IsUpdateState() then m.cur.kind.Id() else last
  }

  predicate NamesLast(m: Machine, last: StateId) { !m.cur.kind.IsPolling() ==> Names(m.disk.db, last) }

  predicate Tracked(m: Machine, last: StateId) {
    Inv(m) && CameFrom(m) && NamesLast(m, last) && EnteredBy(m, last) == last
  }

  lemma LeaveFailureKeepsRecord(cfg: Config, m: Machine, env: Env)
    requires !LeavePasses(m.cur.kind, m.to.kind, env)
    ensures var o := TransitionState(cfg, m, env); o.cur == m.cur && o.cuts == [] && SameRecord(m.disk, o.disk)
  {
    hide HandleError;
    HandleErrorSameRecord(m.cur, m.disk, false, env);
  }

  lemma StepTracked(cfg: Config, m: Machine, last: StateId, env: Env)
    requires StoreWorks(env) && Tracked(m, last)
    ensures var o := TransitionState(cfg, m, env);
            !o.cur.kind.IsPolling() ==>
              Names(o.disk.db, if o.cur.kind.IsUpdateState() then o.cur.kind.Id() else last)
    ensures !m.cur.kind.IsPolling() && !m.to.kind.IsUpdateState() ==> TransitionState(cfg, m, env).cuts == []
  {
    hide TransitionState, Inv, Recalled, OldState;
    TransitionRecorded(cfg, m, env);
    if !LeavePasses(m.cur.kind, m.to.kind, env) {
      LeaveFailureKeepsRecord(cfg, m, env);
      SameRecordSameNames(m.disk, TransitionState(cfg, m, env).disk, last);
    } else {
      EntersUpdateState(cfg, m, env);
      if !m.to.kind.IsUpdateState() && !m.cur.kind.IsPolling() {
        WaitingKeepsRecord(cfg, m, env);
        var o := TransitionState(cfg, m, env);
        if SameRecord(m.disk, o.disk) { SameRecordSameNames(m.disk, o.disk, last); }
      }
    }
  }

  lemma SameRecordSameNames(d: Disk, d': Disk, id: StateId)
    requires SameRecord(d, d')
    ensures Names(d'.db, id) <==> Names(d.db, id)
  {
  }

  /** One step keeps track, and a power loss inside it leaves the last id, or that of the state being entered. */
  lemma NextTracked(cfg: Config, m: Machine, last: StateId, c: Choice)
    requires Works(c) && Tracked(m, last)
    ensures Tracked(Next(cfg, m, c), EnteredBy(Next(cfg, m, c), last))
    ensures c.PowerLoss? && !m.cur.kind.IsPolling() ==>
              Names(Next(cfg, m, c).disk.db,
                    if m.to.kind.IsUpdateState() && 0 < c.cut < |Cuts(cfg, m, c.env)| then m.to.kind.Id() else last)
  {
    hide TransitionState, Inv, Recalled, OldState, Started, StartCuts;
    NextKeepsInv(cfg, m, c);
    StartedKeepsInv(m, c.env);
    StartedRecorded(m, c.env);
    var n := Started(m, c.env);
    StartedTracked(m, last, c.env);
    TransitionRecorded(cfg, n, c.env);
    TransitionFollows(cfg, n, c.env);
    StepTracked(cfg, n, last, c.env);
    NextEnters(cfg, m, c);
  }

  lemma StartedTracked(m: Machine, last: StateId, env: Env)
    requires Tracked(m, last) && Inv(Started(m, env))
    ensures Tracked(Started(m, env), last)
    ensures !m.cur.kind.IsPolling() ==> Started(m, env) == m && StartCuts(m, env) == [m.disk]
  {
    hide Inv, Bootstrap, Recalled;
  }

  lemma EntersUpdateState(cfg: Config, m: Machine, env: Env)
    requires LeavePasses(m.cur.kind, m.to.kind, env)
    ensures var o := TransitionState(cfg, m, env);
            && (m.to.kind.IsPolling() ==> o.cur.kind.IsPolling())
            && (m.to.kind.IsUpdateState() ==> o.cur.kind.IsUpdateState())
  {
    hide Handle, HandleError, StoreNewState, SetBroken, HandlePolling;
    var d := if m.to.kind.IsUpdateState() then StoreNewState(Left(m), env).0 else Left(m).disk;
    if m.to.kind.IsPolling() {
      HandlesPolling(cfg, m.to, d, m.vol, env);
      PollingFollows(m.to, d, m.vol, env);
    } else if m.to.kind.IsUpdateState() {
      HandlerStaysUpdate(cfg, m.to, d, m.vol, env);
    }
  }

  lemma HandlerStaysUpdate(cfg: Config, s: State, d: Disk, vol: Volatile, env: Env)
    requires s.kind.IsUpdateState()
    ensures Handle(cfg, s, d, vol, env).cur.kind.IsUpdateState()
  {
    hide Handle;
    HandlerKeepsId(cfg, s, d, vol, env);
  }

  lemma {:induction false} RunTracked(cfg: Config, m: Machine, choices: seq<Choice>, last: StateId)
    requires Tracked(m, last) && forall c :: c in choices ==> Works(c)
    ensures Tracked(RunAll(cfg, m, choices), LastEntered(cfg, m, choices, last))
    decreases |choices|
  {
    hide Next, Inv, Tracked;
    if choices != [] {
      NextTracked(cfg, m, last, choices[0]);
      RunTracked(cfg, Next(cfg, m, choices[0]), choices[1..], EnteredBy(Next(cfg, m, choices[0]), last));
    }
  }

  /**
   In every run with power losses anywhere, from the entry of an update state to the end
   of the deployment, waits in between included, the stored record carries the id of the
   update state entered last; and a power loss during the next step leaves that id, or
   the one of the update state being entered.
   */
  lemma {:induction false} RecordNamesTheState(cfg: Config, d: Disk, choices: seq<Choice>, env: Env, cut: nat)
    requires StartsClean(d) && StoreWorks(env) && forall c :: c in choices ==> Works(c)
    ensures var m := RunAll(cfg, Boot(d), choices);
            var last := LastEntered(cfg, Boot(d), choices, IdInit);
            !m.cur.kind.IsPolling() ==>
              && (m.cur.kind.IsUpdateState() ==> last == m.cur.kind.Id())
              && Names(m.disk.db, last)
              && Names(Next(cfg, m, PowerLoss(env, cut)).disk.db,
                       if m.to.kind.IsUpdateState() && 0 < cut < |Cuts(cfg, m, env)| then m.to.kind.Id() else last)
  {
    hide RunAll, Inv, Recalled, TransitionState, StartsClean, LastEntered;
    CleanStartHasInv(d);
    RunTracked(cfg, Boot(d), choices, IdInit);
    NextTracked(cfg, RunAll(cfg, Boot(d), choices), LastEntered(cfg, Boot(d), choices, IdInit), PowerLoss(env, cut));
  }

  /** At every step the deployment's record is still there and its commit transaction has not gone through. */
  predicate Undecided(cfg: Config, m: Machine, choices: seq<Choice>)
    decreases |choices|
  {
    && m.disk.db.state.Some? && NameStored !in m.disk.history.facts
    && (choices == [] || Undecided(cfg, Next(cfg, m, choices[0]), choices[1..]))
  }

  /**
   A record of the old schema survives every step and power loss of an update that has
   not been committed, so that the old agent can still be booted and find it.
   */
  lemma {:induction false} OldRecordSurvives(cfg: Config, m: Machine, choices: seq<Choice>)
    requires Inv(m) && NamesCur(m) && OldState(m.disk.db) && Undecided(cfg, m, choices)
    requires forall c :: c in choices ==> Works(c)
    ensures RunAll(cfg, m, choices).disk.db.state == m.disk.db.state
    decreases |choices|
  {
    hide Next, Inv, NamesCur;
    if choices != [] {
      NextKeepsInv(cfg, m, choices[0]);
      NextRecorded(cfg, m, choices[0]);
      OldRecordSurvives(cfg, Next(cfg, m, choices[0]), choices[1..]);
    }
  }
}
