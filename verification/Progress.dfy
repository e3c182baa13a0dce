/**
 What must have gone well before: no deployment gets to a reboot, a commit or a report of
 success past a payload that was not stored, not installed, or not verified after the
 reboot that was asked for, wherever scripts fail and power is lost.
 */
module Progress {
  import opened Wrappers
  import opened StateData
  import opened Datastore
  import opened UpdateStates
  import opened Daemon
  import opened Starts
  import opened Invariants
  import opened Outcomes
  import Recovery

  predicate AllInstalled(info: UpdateInfo, facts: set<Fact>) {
    forall n: nat :: n < |info.payloadTypes| ==> Installed(n) in facts
  }

  predicate AllVerified(info: UpdateInfo, facts: set<Fact>) {
    forall n: nat :: n < |info.payloadTypes| ==> Verified(n) in facts
  }

  predicate NeedsReboot(info: UpdateInfo) { WantsReboot(info.rebootRequested, |info.payloadTypes|) }

  /** How much a state presupposes: the download, the installation, the verified reboot. */
  function Level(k: Kind): nat {
    match k
    case AfterStore | Install => 1
    case FetchControlMap(g, _) => GateLevel(g)
    case FetchRetryControlMap(g, _) => GateLevel(g)
    case ControlMap(g, _) => GateLevel(g)
    case ControlMapPause(g) => GateLevel(g)
    case RebootPauseRequested | Reboot | VerifyReboot => 2
    case AfterReboot | Commit(_) | PreCommitRetry(_) | AfterFirstCommit | AfterCommit => 3
    case Cleanup(success) => if success then 3 else 0
    case StatusReport(success, _, _) => if success then 3 else 0
    case StatusReportRetry(success, _, _, _) => if success then 3 else 0
    case _ => 0
  }

  function GateLevel(g: Gate): nat {
    match g case InstallGate => 1 case RebootGate => 2 case CommitGate => 3
  }

  /** The records from which a boot goes on with a deployment. */
  function RecordLevel(name: StateId): nat {
    match name
    case IdReboot => 2
    case IdUpdateAfterFirstCommit | IdUpdateAfterCommit => 3
    case _ => 0
  }

  predicate Through(level: nat, info: UpdateInfo, facts: set<Fact>) {
    && (level >= 1 ==> Downloaded in facts)
    && (level >= 2 ==> AllInstalled(info, facts))
    && (level >= 3 && NeedsReboot(info) ==> AllVerified(info, facts))
  }

  predicate DiskThrough(d: Disk) {
    Recalled(d.db).Some? ==>
      Through(RecordLevel(Recalled(d.db).value.name), Recalled(d.db).value.info, d.history.facts)
  }

  /** Only in front of a reboot does a pause have a state of its own. */
  predicate ProperPause(k: Kind) {
    match k
    case FetchControlMap(g, pauseState) => pauseState ==> g.RebootGate?
    case FetchRetryControlMap(g, pauseState) => pauseState ==> g.RebootGate?
    case ControlMap(g, pauseState) => pauseState ==> g.RebootGate?
    case _ => true
  }

  predicate StateThrough(s: State, d: Disk) {
    Through(Level(s.kind), s.info, d.history.facts) && ProperPause(s.kind)
  }

  predicate WentThrough(m: Machine) { DiskThrough(m.disk) && StateThrough(m.to, m.disk) }

  predicate ThroughOutcome(o: Outcome) {
    DiskThrough(o.disk) && StateThrough(o.next, o.disk) && forall i :: 0 <= i < |o.cuts| ==> DiskThrough(o.cuts[i])
  }

  // -------------------------------------------------------- what stays through

  predicate KeepsMilestones(d: Disk, d': Disk) {
    forall f :: f in d.history.facts && Milestone(f) ==> f in d'.history.facts
  }

  predicate SamePayloads(info: UpdateInfo, info': UpdateInfo) {
    info'.payloadTypes == info.payloadTypes && info'.rebootRequested == info.rebootRequested
  }

  lemma StaysThrough(level: nat, level': nat, info: UpdateInfo, info': UpdateInfo, d: Disk, d': Disk)
    requires Through(level, info, d.history.facts) && level' <= level && SamePayloads(info, info')
    requires KeepsMilestones(d, d')
    ensures Through(level', info', d'.history.facts)
  {
  }

  lemma RecordStaysThrough(d: Disk, d': Disk)
    requires DiskThrough(d) && KeepsMilestones(d, d') && Recovery.SameRecord(d, d')
    ensures DiskThrough(d')
  {
    hide Through, KeepsMilestones;
    if Recalled(d.db).Some? {
      var r := Recalled(d.db).value;
      StaysThrough(RecordLevel(r.name), RecordLevel(r.name), r.info, r.info, d, d');
    }
  }

  /** A record that presupposes nothing. */
  lemma LowRecord(d: Disk, name: StateId)
    requires Recovery.Names(d.db, name) && RecordLevel(name) == 0
    ensures DiskThrough(d)
  {
  }

  lemma ErrorThrough(s: State, d: Disk, fatal: bool, env: Env)
    ensures var (d', next) := HandleError(s, d, fatal, env);
            KeepsMilestones(d, d') && Level(next.kind) == 0 && Recovery.SameRecord(d, d')
  {
  }

  // -------------------------------------------------------------- the handlers

  /** A handler leads no further than it may, and forgets nothing. */
  predicate LeadsThrough(s: State, d: Disk, o: Outcome) {
    && KeepsMilestones(d, o.disk) && (forall i :: 0 <= i < |o.cuts| ==> KeepsMilestones(d, o.cuts[i]))
    && (StateThrough(s, d) ==> StateThrough(o.next, o.disk))
  }

  lemma FailedLeadsThrough(cur: State, s: State, d0: Disk, d: Disk, vol: Volatile, fatal: bool, env: Env)
    requires KeepsMilestones(d0, d)
    ensures LeadsThrough(cur, d0, FailedAs(cur, s, d, vol, fatal, env))
  {
    hide HandleError;
    ErrorThrough(s, d, fatal, env);
  }

  lemma GotoLeadsThrough(s: State, kind: Kind, d: Disk, d1: Disk, vol: Volatile)
    requires Level(kind) <= Level(s.kind) && (ProperPause(s.kind) ==> ProperPause(kind)) && KeepsMilestones(d, d1)
    ensures LeadsThrough(s, d, Goto(s, kind, d1, vol))
  {
  }

  lemma StoreLeadsThrough(s: State, d: Disk, vol: Volatile, env: Env)
    requires StoreWorks(env) && s.kind.Store?
    ensures LeadsThrough(s, d, HandleStore(s, d, vol, env))
  {
    hide HandleStore, LeadsThrough;
    if HeadersRight(env) { HeadersLead(s, d, vol, env); } else { StoreGivesUp(s, d, vol, env); }
  }

  predicate HeadersRight(env: Env) {
    env.logger && !env.report.Fatal? && env.headers.Some? && env.headersMatch && env.dependsMet
  }

  lemma StoreGivesUp(s: State, d: Disk, vol: Volatile, env: Env)
    requires !HeadersRight(env)
    ensures LeadsThrough(s, d, HandleStore(s, d, vol, env))
  {
    hide StoreHeaders, StateThrough, LeadsThrough, WithHeaders, Goto;
    if !env.logger || env.report.Fatal? {
      BackLeadsThrough(s, s, StatusReport(false, 0, 0), d, vol);
    } else if env.headers.None? {
      BackLeadsThrough(s, s, Cleanup(false), d, vol);
    } else {
      BackLeadsThrough(s, State(Store, s.info.(payloadTypes := env.headers.value)), StatusReport(false, 0, 0), d,
                       vol.(installers := |env.headers.value|));
    }
  }

  lemma BackLeadsThrough(s: State, cur: State, kind: Kind, d: Disk, vol: Volatile)
    requires Level(kind) == 0
    ensures LeadsThrough(s, d, Goto(cur, kind, d, vol))
  {
    hide StateThrough, LeadsThrough;
    LowLeadsThrough(s, d, Goto(cur, kind, d, vol));
  }

  lemma HeadersLead(s: State, d: Disk, vol: Volatile, env: Env)
    requires StoreWorks(env) && s.kind.Store? && HeadersRight(env)
    ensures LeadsThrough(s, d, HandleStore(s, d, vol, env))
  {
    hide StateThrough, StoreHeaders, KeepsMilestones, WithHeaders, StoreWorks;
    var s1 := State(Store, WithHeaders(s.info.(payloadTypes := env.headers.value), env));
    HeadersLeadThrough(s1, d, vol.(installers := |env.headers.value|), env);
  }

  lemma HeadersLeadThrough(s: State, d: Disk, vol: Volatile, env: Env)
    requires StoreWorks(env) && s.kind.Store? && env.headersMatch && env.dependsMet
    ensures var o := StoreHeaders(s, d, vol, env);
            && KeepsMilestones(d, o.disk) && (forall i :: 0 <= i < |o.cuts| ==> KeepsMilestones(d, o.cuts[i]))
            && StateThrough(o.next, o.disk)
  {
    hide CollectSupport, StoreStateData;
  }

  /** Back to where nothing is presupposed. */
  lemma LowLeadsThrough(s: State, d: Disk, o: Outcome)
    requires Level(o.next.kind) == 0 && KeepsMilestones(d, o.disk)
    requires forall i :: 0 <= i < |o.cuts| ==> KeepsMilestones(d, o.cuts[i])
    ensures LeadsThrough(s, d, o)
  {
  }

  lemma InstallLeadsThrough(s: State, d: Disk, vol: Volatile, env: Env)
    requires StoreWorks(env) && s.kind.Install? && vol.installers == |s.info.payloadTypes|
    ensures LeadsThrough(s, d, HandleInstall(s, d, vol, env))
  {
    hide HandleError, CollectReboots, StoreInstall, LeadsThrough, FailedAs, Goto;
    var d1 := AddFacts(d, InstallFacts(env, vol.installers));
    var (requested, ok) := CollectReboots(s.info.rebootRequested, env.rebootAnswers, 0, vol.installers);
    var s1 := State(Install, s.info.(rebootRequested := requested));
    FailedLeadsThrough(s, s, d, d, vol, true, env);
    FailedLeadsThrough(s, s, d, d1, vol, false, env);
    GotoLeadsThrough(s, UpdateError, d, d, vol);
    ErrorLeadsThrough(s, s1, d, d1, vol, env);
    if AllSucceed(env, vol.installers) {
      assert AllInstalled(s1.info, d1.history.facts);
      StoreInstallLeadsThrough(s, s1, d, d1, vol, env);
    }
  }

  lemma ErrorLeadsThrough(s: State, s1: State, d: Disk, d1: Disk, vol: Volatile, env: Env)
    requires KeepsMilestones(d, d1)
    ensures LeadsThrough(s, d, Failed(s1, d1, vol, false, env))
  {
    hide HandleError, LeadsThrough;
    ErrorThrough(s1, d1, false, env);
    LowLeadsThrough(s, d, Failed(s1, d1, vol, false, env));
  }

  lemma StoreInstallLeadsThrough(s: State, s1: State, d: Disk, d1: Disk, vol: Volatile, env: Env)
    requires StoreWorks(env) && s.kind.Install? && s1.kind.Install? && KeepsMilestones(d, d1)
    requires vol.installers == |s1.info.payloadTypes| && AllInstalled(s1.info, d1.history.facts)
    ensures LeadsThrough(s, d, StoreInstall(s1, d1, vol, env))
  {
    hide HandleError, StoreStateData, WantsReboot;
    ErrorThrough(s1, Put(d1, IdUpdateInstall, s1.info, true, NoFault).0, false, env);
  }

  lemma VerifyLeadsThrough(s: State, d: Disk, vol: Volatile, env: Env)
    requires s.kind.VerifyReboot? && vol.installers == |s.info.payloadTypes|
    ensures LeadsThrough(s, d, HandleVerifyReboot(s, d, vol, env))
  {
    hide HandleError, WantsReboot;
    var d1 := AddFacts(d, VerifyFacts(env, vol.installers));
    FailedLeadsThrough(s, s, d, d1, vol, false, env);
    if AllSucceed(env, vol.installers) { assert AllVerified(s.info, d1.history.facts); }
  }

  lemma CommitLeadsThrough(cfg: Config, s: State, d: Disk, vol: Volatile, env: Env)
    requires StoreWorks(env) && s.kind.Commit?
    ensures LeadsThrough(s, d, HandleCommit(cfg, s, d, vol, env))
  {
    hide HandleError, LeadsThrough, FailedAs, Goto, StoreCommit;
    FailedLeadsThrough(s, s, d, d, vol, false, env);
    var tries := s.kind.tries + 1;
    var s1 := State(Commit(tries), s.info.(reportAttempts := AttemptsAfter(tries, env.report)));
    ErrorThrough(s1, d, env.report.Fatal?, env);
    SentCommitLeadsThrough(cfg, s, s1, d, vol, env);
  }

  lemma SentCommitLeadsThrough(cfg: Config, s: State, s1: State, d: Disk, vol: Volatile, env: Env)
    requires StoreWorks(env) && s.kind.Commit? && s1.kind.Commit? && SamePayloads(s.info, s1.info)
    ensures LeadsThrough(s, d, SentCommit(cfg, s1, d, vol, env))
  {
    hide HandleError, StoreCommit;
    ErrorThrough(s1, d, env.report.Fatal?, env);
    var fact := if vol.installers > 0 then Committed(0) else EmptyArtifact;
    var s2 := State(s1.kind, s1.info.(schemaUpdate := false));
    CommitStoredThrough(cfg, s2, AddFacts(d, {fact}), vol, env);
  }

  lemma CommitStoredThrough(cfg: Config, s: State, d: Disk, vol: Volatile, env: Env)
    requires s.kind.Commit?
    ensures var o := StoreCommit(cfg, s, d, vol, env);
            && KeepsMilestones(d, o.disk) && (forall i :: 0 <= i < |o.cuts| ==> KeepsMilestones(d, o.cuts[i]))
            && (Level(o.next.kind) == 0 || o.next == State(AfterFirstCommit, s.info))
  {
    hide StoreStateDataAndTransaction;
  }

  lemma OthersLeadThrough(cfg: Config, s: State, d: Disk, vol: Volatile, env: Env)
    requires !s.kind.IsPolling() && !s.kind.IsGate() && !s.kind.IsEnding()
    requires !s.kind.Store? && !s.kind.Install? && !s.kind.VerifyReboot? && !s.kind.Commit?
    ensures LeadsThrough(s, d, HandleForward(cfg, s, d, vol, env))
  {
    hide HandleError, HandleStore, HandleInstall, HandleVerifyReboot, HandleCommit, FailedAs, Goto, LeadsThrough;
    hide GivesUp, MaxSends, ScanReboots;
    FailedLeadsThrough(s, s, d, d, vol, false, env);
    if s.kind.AfterFirstCommit? {
      var d1 := AddFacts(d, CommitFacts(env, 1, vol.installers));
      FailedLeadsThrough(s, s, d, d1, vol, false, env);
      GotoLeadsThrough(s, AfterCommit, d, d1, vol);
    } else if s.kind.PreCommitRetry? {
      FailedLeadsThrough(s, State(Commit(s.kind.tries), s.info), d, d, vol, false, env);
      GotoLeadsThrough(s, Commit(s.kind.tries), d, d, vol);
    } else if s.kind.Fetch? || s.kind.FetchStoreRetry? {
      FetchLeadsThrough(cfg, s, d, vol, env);
    } else if s.kind.Reboot? {
      GotoLeadsThrough(s, Rollback, d, d, vol);
      GotoLeadsThrough(s, VerifyReboot, d, d, vol);
    } else {
      PassingLeadsThrough(cfg, s, d, vol, env);
    }
  }

  lemma FetchLeadsThrough(cfg: Config, s: State, d: Disk, vol: Volatile, env: Env)
    ensures s.kind.Fetch? ==> LeadsThrough(s, d, HandleFetch(s, d, vol, env))
    ensures s.kind.FetchStoreRetry? ==> LeadsThrough(s, d, HandleFetchStoreRetry(cfg, s, d, vol))
  {
    hide GivesUp;
  }

  lemma PassingLeadsThrough(cfg: Config, s: State, d: Disk, vol: Volatile, env: Env)
    requires s.kind.AfterStore? || s.kind.RebootPauseRequested? || s.kind.AfterReboot? || s.kind.AfterCommit?
    ensures LeadsThrough(s, d, HandleForward(cfg, s, d, vol, env))
  {
    hide HandleStore, HandleInstall, HandleVerifyReboot, HandleCommit, HandleReboot, HandlePreCommitRetry;
    hide HandleAfterFirstCommit, HandleFetch, HandleFetchStoreRetry;
  }

  lemma GateLeadsThrough(cfg: Config, s: State, d: Disk, vol: Volatile, env: Env)
    requires s.kind.IsGate()
    ensures LeadsThrough(s, d, HandleGate(cfg, s, d, vol, env))
  {
    hide HandleError, GivesUp, FailedAs, LeadsThrough, Goto;
    var g := s.kind.gate;
    var w := if s.kind.ControlMapPause? then s else State(Wrapped(g), s.info);
    var told := vol.(pauseReported := vol.pauseReported + {g});
    FailedLeadsThrough(s, w, d, d, vol, false, env);
    FailedLeadsThrough(s, w, d, d, told, true, env);
    if s.kind.FetchControlMap? || s.kind.FetchRetryControlMap? {
      FetchGateLeadsThrough(cfg, s, d, vol, env);
    } else {
      AskGateLeadsThrough(s, d, vol, told, env);
    }
  }

  lemma FetchGateLeadsThrough(cfg: Config, s: State, d: Disk, vol: Volatile, env: Env)
    requires s.kind.FetchControlMap? || s.kind.FetchRetryControlMap?
    ensures s.kind.FetchControlMap? ==> LeadsThrough(s, d, HandleFetchControlMap(s, d, vol, env))
    ensures s.kind.FetchRetryControlMap? ==> LeadsThrough(s, d, HandleFetchRetryControlMap(cfg, s, d, vol, env))
  {
    hide HandleError, GivesUp, FailedAs, LeadsThrough, Goto;
    var (g, p) := (s.kind.gate, s.kind.pauseState);
    FailedLeadsThrough(s, State(Wrapped(g), s.info), d, d, vol, false, env);
    GotoLeadsThrough(s, FetchRetryControlMap(g, p), d, d, vol);
    GotoLeadsThrough(s, ControlMap(g, p), d, d, vol.(mapAttempts := 0));
    GotoLeadsThrough(s, FetchControlMap(g, p), d, d, vol.(mapAttempts := vol.mapAttempts + 1));
  }

  lemma AskGateLeadsThrough(s: State, d: Disk, vol: Volatile, told: Volatile, env: Env)
    requires s.kind.ControlMap? || s.kind.ControlMapPause?
    requires told == vol.(pauseReported := vol.pauseReported + {s.kind.gate})
    ensures s.kind.ControlMap? ==> LeadsThrough(s, d, HandleControlMap(s, d, vol, env))
    ensures s.kind.ControlMapPause? ==> LeadsThrough(s, d, HandleControlMapPause(s, d, vol, env))
  {
    hide HandleError, FailedAs, LeadsThrough, Goto, KeepsMilestones;
    SameKeeps(d);
    var g := s.kind.gate;
    FailedLeadsThrough(s, State(Wrapped(g), s.info), d, d, vol, false, env);
    FailedLeadsThrough(s, State(Wrapped(g), s.info), d, d, told, true, env);
    GotoLeadsThrough(s, Wrapped(g), d, d, vol);
    GotoLeadsThrough(s, ControlMapPause(g), d, d, told);
    GotoLeadsThrough(s, FetchControlMap(g, false), d, d, vol);
    GotoLeadsThrough(s, ControlMap(g, false), d, d, vol);
    if s.kind.ControlMap? && s.kind.pauseState { PauseLeadsThrough(s, d, vol); }
  }

  lemma SameKeeps(d: Disk)
    ensures KeepsMilestones(d, d)
  {
  }

  lemma PauseLeadsThrough(s: State, d: Disk, vol: Volatile)
    requires s.kind.ControlMap? && s.kind.pauseState
    ensures LeadsThrough(s, d, Goto(s, RebootPauseRequested, d, vol))
  {
  }

  lemma EndLeadsThrough(cfg: Config, s: State, d: Disk, vol: Volatile, env: Env)
    requires s.kind.IsEnding()
    ensures LeadsThrough(s, d, HandleEnding(cfg, s, d, vol, env))
  {
    hide HandleError, FailedAs, LeadsThrough, Goto, HandleStatusReport, HandleStatusReportRetry, HandleCleanup;
    hide HandleRollback, AllSucceed;
    FailedLeadsThrough(s, s, d, d, vol, false, env);
    match s.kind
    case Rollback => RollbackLeadsThrough(s, d, vol, env);
    case RollbackReboot => GotoLeadsThrough(s, VerifyRollbackReboot, d, d, vol);
    case VerifyRollbackReboot => GotoLeadsThrough(s, AfterRollbackReboot, d, d, vol);
    case AfterRollbackReboot => GotoLeadsThrough(s, UpdateError, d, d, vol);
    case UpdateError => GotoLeadsThrough(s, Cleanup(false), d, d, vol);
    case Cleanup(_) => CleanupLeadsThrough(s, d, vol, env);
    case StatusReport(_, _, _) => ReportLeadsThrough(cfg, s, d, vol, env);
    case StatusReportRetry(_, _, _, _) => ReportLeadsThrough(cfg, s, d, vol, env);
  }

  lemma RollbackLeadsThrough(s: State, d: Disk, vol: Volatile, env: Env)
    requires s.kind.Rollback?
    ensures LeadsThrough(s, d, HandleRollback(s, d, vol, env))
  {
    hide HandleError, QueryReboots;
    ErrorThrough(s, d, true, env);
  }

  lemma CleanupLeadsThrough(s: State, d: Disk, vol: Volatile, env: Env)
    requires s.kind.Cleanup?
    ensures LeadsThrough(s, d, HandleCleanup(s, d, vol, env))
  {
    hide WantsReboot;
  }

  lemma ReportLeadsThrough(cfg: Config, s: State, d: Disk, vol: Volatile, env: Env)
    ensures s.kind.StatusReport? ==> LeadsThrough(s, d, HandleStatusReport(s, d, vol, env))
    ensures s.kind.StatusReportRetry? ==> LeadsThrough(s, d, HandleStatusReportRetry(cfg, s, d, vol))
  {
    hide WantsReboot, MaxSends;
  }

  lemma HandlerLeadsThrough(cfg: Config, s: State, d: Disk, vol: Volatile, env: Env)
    requires StoreWorks(env) && Ready(s, d, vol) && !s.kind.IsPolling()
    ensures LeadsThrough(s, d, Handle(cfg, s, d, vol, env))
  {
    hide LeadsThrough, HandleStore, HandleInstall, HandleVerifyReboot, HandleCommit, DiskInv, HandleEnding, HandleGate;
    if s.kind.Store? { StoreLeadsThrough(s, d, vol, env); }
    else if s.kind.Install? { InstallLeadsThrough(s, d, vol, env); }
    else if s.kind.VerifyReboot? { VerifyLeadsThrough(s, d, vol, env); }
    else if s.kind.Commit? { CommitLeadsThrough(cfg, s, d, vol, env); }
    else if s.kind.IsGate() { GateLeadsThrough(cfg, s, d, vol, env); }
    else if s.kind.IsEnding() { EndLeadsThrough(cfg, s, d, vol, env); }
    else { OthersLeadThrough(cfg, s, d, vol, env); }
  }

  /** And it leaves a record that presupposes nothing, or the one it was entered with. */
  lemma HandlerGoesThrough(cfg: Config, s: State, d: Disk, vol: Volatile, env: Env)
    requires StoreWorks(env) && Ready(s, d, vol) && !s.kind.IsPolling() && DiskThrough(d) && StateThrough(s, d)
    requires s.kind.IsUpdateState() ==> Recovery.Names(d.db, s.kind.Id())
    ensures ThroughOutcome(Handle(cfg, s, d, vol, env))
  {
    hide Handle, DiskThrough, StateThrough, KeepsMilestones, DiskInv;
    HandlerLeadsThrough(cfg, s, d, vol, env);
    var o := Handle(cfg, s, d, vol, env);
    if s.kind.Store? || s.kind.Install? || s.kind.Commit? {
      Recovery.HandlerNames(cfg, s, d, vol, env);
      LowRecord(o.disk, s.kind.Id());
      forall i | 0 <= i < |o.cuts| ensures DiskThrough(o.cuts[i]) { LowRecord(o.cuts[i], s.kind.Id()); }
    } else {
      Recovery.PlainHandlerSameRecord(cfg, s, d, vol, env);
      RecordStaysThrough(d, o.disk);
    }
  }

  // ------------------------------------------------- between two deployments

  lemma RecountStaysThrough(d: Disk, d': Disk)
    requires DiskThrough(d) && Recounted(d, d')
    ensures DiskThrough(d')
  {
    hide Recalled, OldState, Through;
    if Recalled(d.db).Some? {
      var r := Recalled(d.db).value;
      StaysThrough(RecordLevel(r.name), RecordLevel(r.name), r.info, AfterLoad(r).info, d, d');
    }
  }

  lemma LoadGoesThrough(d: Disk)
    requires DiskInv(d) && DiskThrough(d)
    ensures var (db, loaded) := LoadStateData(d.db, NoFault);
            loaded.Loaded? || loaded.LoadExceeded? ==>
              && Recalled(db) == Some(loaded.record)
              && Through(RecordLevel(loaded.record.name), loaded.record.info, d.history.facts)
  {
    hide Through, NameInv, CommittedNameInv, RecordInv;
    LoadKeepsInv(d);
    if d.db.state.Some? {
      var r := Recalled(d.db).value;
      StaysThrough(RecordLevel(r.name), RecordLevel(r.name), r.info, AfterLoad(r).info, d, d);
    }
  }

  lemma ResumeGoesThrough(r: Record, d: Disk, env: Env)
    requires env.removeOk && Recalled(d.db) == Some(r) && DiskThrough(d)
    ensures var (d', next) := Resume(r, d, env); DiskThrough(d') && StateThrough(next, d')
  {
    hide AllInstalled, AllVerified, NeedsReboot;
  }

  lemma LoadedThrough(d: Disk, d': Disk, r: Record)
    requires Through(RecordLevel(r.name), r.info, d.history.facts) && Recalled(d'.db) == Some(r)
    requires KeepsMilestones(d, d')
    ensures DiskThrough(d')
  {
    hide Through;
    StaysThrough(RecordLevel(r.name), RecordLevel(r.name), r.info, r.info, d, d');
  }

  lemma InitGoesThrough(s: State, d: Disk, vol: Volatile, env: Env)
    requires StoreWorks(env) && DiskInv(d) && DiskThrough(d)
    ensures ThroughOutcome(HandleInit(s, d, vol, env))
  {
    hide Resume, LoadStateData, DiskInv, AllInstalled, AllVerified, NeedsReboot, Recalled;
    LoadKeepsInv(d);
    LoadGoesThrough(d);
    var (db, loaded) := LoadStateData(d.db, NoFault);
    if loaded.Loaded? {
      LoadedThrough(d, LimitSettled(d.(db := db)), loaded.record);
      var d1 := NoteResume(LimitSettled(d.(db := db)), loaded.record);
      LoadedThrough(d, d1, loaded.record);
      if env.restored { ResumeGoesThrough(loaded.record, d1, env); }
    } else if loaded.LoadExceeded? {
      var d1 := LimitFires(d.(db := db));
      LoadedThrough(d, d1, loaded.record);
      RecordStaysThrough(d1, SetBroken(d1, loaded.record.info, env.flagOk));
    }
  }

  lemma PollingGoesThrough(s: State, d: Disk, vol: Volatile, env: Env)
    requires StoreWorks(env) && s.kind.IsPolling() && Ready(s, d, vol) && DiskThrough(d)
    ensures ThroughOutcome(HandlePolling(s, d, vol, env))
  {
    hide HandleInit, DiskInv, AllInstalled, AllVerified, NeedsReboot;
    if s.kind.Init? { InitGoesThrough(s, d, vol, env); }
  }

  // ----------------------------------------------------------- the whole step

  lemma HandleGoesThrough(cfg: Config, s: State, d: Disk, vol: Volatile, env: Env)
    requires StoreWorks(env) && Ready(s, d, vol) && DiskThrough(d) && StateThrough(s, d)
    requires s.kind.IsUpdateState() ==> Recovery.Names(d.db, s.kind.Id())
    ensures ThroughOutcome(Handle(cfg, s, d, vol, env))
  {
    hide HandlePolling, HandleGate, HandleEnding, HandleForward, ThroughOutcome, DiskThrough, StateThrough, Ready;
    if s.kind.IsPolling() { PollingGoesThrough(s, d, vol, env); } else { HandlerGoesThrough(cfg, s, d, vol, env); }
  }

  /** The record of the new state presupposes no more than the state. */
  lemma StoreNewStateThrough(m: Machine, env: Env)
    requires StoreWorks(env) && Inv(m) && WentThrough(m) && m.to.kind.IsUpdateState()
    ensures var d := StoreNewState(m, env).0; DiskThrough(d) && StateThrough(m.to, d)
  {
    hide Through, DiskInv, KindInv, StoreNewState;
    StoreNewStateKeepsInv(m, env);
    StoredRecord(m, env);
    var d := StoreNewState(m, env).0;
    var r := Recalled(d.db).value;
    StaysThrough(Level(m.to.kind), Level(m.to.kind), m.to.info, m.to.info, m.disk, d);
    if RecordLevel(r.name) == 3 {
      StaysThrough(Level(m.to.kind), 3, m.to.info, r.info, m.disk, d);
    } else {
      InstalledThrough(Level(m.to.kind), RecordLevel(r.name), m.to.info, r.info, m.disk, d);
    }
  }

  /** Up to the installation, only the payloads themselves matter. */
  lemma InstalledThrough(level: nat, level': nat, info: UpdateInfo, info': UpdateInfo, d: Disk, d': Disk)
    requires Through(level, info, d.history.facts) && level' <= level && level' <= 2
    requires KeepsMilestones(d, d') && info'.payloadTypes == info.payloadTypes
    ensures Through(level', info', d'.history.facts)
  {
    hide NeedsReboot;
  }

  lemma PutRecords(d: Disk, id: StateId, info: UpdateInfo, counted: bool)
    requires InfoInv(info, d)
    ensures var d' := Put(d, id, info, counted, NoFault).0;
            && KeepsMilestones(d, d') && Recalled(d'.db).Some? && Recalled(d'.db).value.name == id
            && Recalled(d'.db).value.info.payloadTypes == info.payloadTypes
            && (!info.schemaUpdate ==> SamePayloads(info, Recalled(d'.db).value.info))
  {
  }

  lemma StoredRecord(m: Machine, env: Env)
    requires StoreWorks(env) && Inv(m) && m.to.kind.IsUpdateState()
    ensures var d := StoreNewState(m, env).0;
            && KeepsMilestones(m.disk, d) && Recalled(d.db).Some? && Recalled(d.db).value.name == m.to.kind.Id()
            && Recalled(d.db).value.info.payloadTypes == m.to.info.payloadTypes
            && (RecordLevel(m.to.kind.Id()) == 3 ==> SamePayloads(m.to.info, Recalled(d.db).value.info))
  {
    hide DiskInv, KindInv, Put, Recalled;
    var (d, r) := Put(m.disk, m.to.kind.Id(), m.to.info, Counted(m.cur.kind, m.to.kind), NoFault);
    PutRecords(m.disk, m.to.kind.Id(), m.to.info, Counted(m.cur.kind, m.to.kind));
    Recovery.NamesByDb(d, m, r);
    if RecordLevel(m.to.kind.Id()) == 3 { PastCommitHasNewSchema(m); }
  }

  lemma PastCommitHasNewSchema(m: Machine)
    requires Inv(m) && RecordLevel(m.to.kind.Id()) == 3
    ensures !m.to.info.schemaUpdate
  {
    hide NameInv, Recalled;
  }

  lemma EnterGoesThrough(cfg: Config, m: Machine, d: Disk, env: Env)
    requires StoreWorks(env) && Ready(m.to, d, m.vol) && DiskThrough(d) && StateThrough(m.to, d)
    requires m.to.kind.IsUpdateState() ==> Recovery.Names(d.db, m.to.kind.Id())
    ensures ThroughOutcome(EnterAndHandle(cfg, m, d, env))
  {
    hide Handle, HandleError, DiskThrough, StateThrough, Ready;
    if EnterPasses(m.cur.kind, m.to.kind, env) { HandleGoesThrough(cfg, m.to, d, m.vol, env); }
    else { FailureGoesThrough(m.to, m.to, d, m.vol, env); }
  }

  lemma FailureGoesThrough(cur: State, s: State, d: Disk, vol: Volatile, env: Env)
    requires DiskThrough(d)
    ensures ThroughOutcome(FailedAs(cur, s, d, vol, false, env))
  {
    hide HandleError, DiskThrough, AllInstalled, AllVerified, NeedsReboot;
    ErrorThrough(s, d, false, env);
    RecordStaysThrough(d, HandleError(s, d, false, env).0);
  }

  lemma LimitGoesThrough(m: Machine, d: Disk, r: StoreResult, env: Env)
    requires DiskThrough(d) && r.CountExceeded?
    ensures var (d1, next) := HandleError(m.to, d, true, env);
            var (d2, next2) := AfterStoreError(d1, next, m.to.info, r, env.flagOk);
            ThroughOutcome(Outcome(m.to, next2, d2, m.vol, [d, d1]))
  {
    hide HandleError, DiskThrough, AllInstalled, AllVerified, NeedsReboot;
    ErrorThrough(m.to, d, true, env);
    var d1 := HandleError(m.to, d, true, env).0;
    RecordStaysThrough(d, d1);
    RecordStaysThrough(d1, SetBroken(d1, m.to.info, env.flagOk));
  }

  lemma EnterStateGoesThrough(cfg: Config, m: Machine, env: Env)
    requires StoreWorks(env) && Inv(m) && WentThrough(m)
    requires m.to.kind == Cleanup(true) ==> CommitLeaveOk in m.disk.history.facts
    ensures ThroughOutcome(EnterState(cfg, m, env))
  {
    hide EnterAndHandle, HandleError, StoreNewState, AfterStoreError, DiskThrough, StateThrough, DiskInv, StateInv;
    if m.to.kind.IsUpdateState() {
      StoreNewStateKeepsInv(m, env);
      StoreNewStateThrough(m, env);
      Recovery.StoreNamesNewState(m, env);
      var (d, r) := StoreNewState(m, env);
      StoredOrExceeded(m, env);
      if r.Stored? { EnterGoesThrough(cfg, m, d, env); } else { LimitGoesThrough(m, d, r, env); }
    } else {
      EnterGoesThrough(cfg, m, m.disk, env);
    }
  }

  lemma StoredOrExceeded(m: Machine, env: Env)
    requires StoreWorks(env)
    ensures !StoreNewState(m, env).1.StoreFailed?
  {
  }

  lemma LeftGoesThrough(m: Machine)
    requires WentThrough(m)
    ensures WentThrough(Left(m))
  {
    hide NeedsReboot;
    var m' := Left(m);
    assert KeepsMilestones(m.disk, m'.disk) && Recovery.SameRecord(m.disk, m'.disk) && m'.to == m.to;
    RecordStaysThrough(m.disk, m'.disk);
  }

  lemma TransitionGoesThrough(cfg: Config, m: Machine, env: Env)
    requires StoreWorks(env) && Inv(m) && WentThrough(m)
    ensures ThroughOutcome(TransitionState(cfg, m, env))
  {
    hide EnterState, Inv, HandleError, DiskThrough, StateThrough;
    if LeavePasses(m.cur.kind, m.to.kind, env) {
      LeftKeepsInv(m);
      LeftGoesThrough(m);
      EnterStateGoesThrough(cfg, Left(m), env);
    } else {
      FailureGoesThrough(m.cur, m.cur, m.disk, m.vol, env);
    }
  }

  lemma StartedGoesThrough(m: Machine, env: Env)
    requires StoreWorks(env) && WentThrough(m)
    ensures WentThrough(Started(m, env))
    ensures forall i :: 0 <= i < |StartCuts(m, env)| ==> DiskThrough(StartCuts(m, env)[i])
  {
    hide CountedAtStart, Bootstrap, DiskThrough, Recounted, AllInstalled, AllVerified, NeedsReboot;
    LoadRecounts(m.disk, env);
    BootstrapRecounts(m.disk, env);
    RecountStaysThrough(m.disk, CountedAtStart(m.disk, env));
    RecountStaysThrough(m.disk, Bootstrap(m.disk, env));
  }

  lemma NextGoesThrough(cfg: Config, m: Machine, c: Choice)
    requires Works(c) && Inv(m) && WentThrough(m)
    ensures WentThrough(Next(cfg, m, c))
  {
    hide TransitionState, Inv, Started, StartCuts, DiskThrough;
    hide StateThrough;
    StartedKeepsInv(m, c.env);
    StartedGoesThrough(m, c.env);
    TransitionGoesThrough(cfg, Started(m, c.env), c.env);
    if c.PowerLoss? { BootGoesThrough(At(Cuts(cfg, m, c.env), c.cut, m.disk)); }
  }

  lemma BootGoesThrough(d: Disk)
    requires DiskThrough(d)
    ensures WentThrough(Boot(d))
  {
  }

  lemma {:induction false} RunGoesThrough(cfg: Config, m: Machine, choices: seq<Choice>)
    requires Inv(m) && WentThrough(m) && forall c :: c in choices ==> Works(c)
    ensures Inv(RunAll(cfg, m, choices)) && WentThrough(RunAll(cfg, m, choices))
    decreases |choices|
  {
    hide Next, Inv, WentThrough;
    if choices != [] {
      NextKeepsInv(cfg, m, choices[0]);
      NextGoesThrough(cfg, m, choices[0]);
      RunGoesThrough(cfg, Next(cfg, m, choices[0]), choices[1..]);
    }
  }

  /** The states that no deployment may enter without its payloads installed. */
  predicate PastInstall(k: Kind) {
    match k
    case RebootPauseRequested | Reboot | VerifyReboot | AfterReboot => true
    case Commit(_) | PreCommitRetry(_) | AfterFirstCommit | AfterCommit => true
    case Cleanup(success) => success
    case StatusReport(success, _, _) => success
    case StatusReportRetry(success, _, _, _) => success
    case _ => false
  }

  /**
   Over every run with power losses at any point, from a device whose record, if it is in
   the middle of a reboot, follows a complete installation: no payload is installed that
   was not downloaded whole; no reboot, commit or report of success comes before every
   payload's InstallUpdate has succeeded; and where a payload asked for a reboot, no
   commit or report of success comes before every payload's VerifyReboot has.
   */
  lemma NothingSkipped(cfg: Config, d: Disk, choices: seq<Choice>)
    requires StartsClean(d) && (Recalled(d.db).Some? ==> !Recalled(d.db).value.name.IdReboot?)
    requires forall c :: c in choices ==> Works(c)
    ensures var m := RunAll(cfg, Boot(d), choices);
            var (k, info, facts) := (m.to.kind, m.to.info, m.disk.history.facts);
            && (k.Install? ==> Downloaded in facts)
            && (PastInstall(k) ==>
                  Downloaded in facts && forall n: nat :: n < |info.payloadTypes| ==> Installed(n) in facts)
            && (PastInstall(k) && !k.RebootPauseRequested? && !k.Reboot? && !k.VerifyReboot? ==>
                  (exists n: nat :: n < |info.payloadTypes| && n < |info.rebootRequested|
                                    && !info.rebootRequested[n].RebootNone?) ==>
                    forall n: nat :: n < |info.payloadTypes| ==> Verified(n) in facts)
  {
    CleanStartHasInv(d);
    assert WentThrough(Boot(d));
    RunGoesThrough(cfg, Boot(d), choices);
  }
}
