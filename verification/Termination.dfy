/**
 When every deployment ends. A rank over machines goes down with every step, with every
 script and payload failure, and with every power loss that leaves something to count,
 unless a start finds the count at its maximum and lets it start over.
 */
module Termination {
  import opened Wrappers
  import opened StateData
  import opened Datastore
  import opened UpdateStates
  import opened Daemon
  import opened Invariants
  import opened Starts
  import opened Outcomes
  import opened PointOfNoReturn
  import Recovery
  import Backoff

  /** Between two deployments. */
  predicate Over(k: Kind) { k.IsPolling() && !k.Init? }

  /** The update control maps never ask for a pause. */
  predicate NoPause(c: Choice) { !c.env.action.Pause? }

  predicate Hit(d: Disk) { LimitHit in d.history.facts }

  predicate Pending(d: Disk) { d.history.limitPending }

  /**
   Power losses that may bring a deployment no nearer to its end: with a report due, after
   the loop limit has fired and before a report or another ending state has been stored,
   and during a boot that has not loaded the record yet.
   */
  predicate Unproductive(cfg: Config, m: Machine, c: Choice) {
    && c.PowerLoss?
    && var left := Next(cfg, m, c).disk;
       m.to.kind.IsReporting() || Pending(left) || (m.to.kind.Init? && Recovery.SameRecord(m.disk, left))
  }

  /** A start whose first load finds the count at its maximum, and lets it start over unnoticed. */
  predicate Forgets(m: Machine) { m.to.kind.Init? && Count(m.disk.db) >= MAX_STORE_COUNT }

  /** Only a boot enters Init, and Leave scripts can stop a report only if the limit has fired. */
  predicate Orderly(m: Machine) {
    && (m.to.kind.Init? ==> m.cur.kind.Init?)
    && (m.to.kind.IsReporting() && LeaveMayFail(m.cur.kind) ==> Pending(m.disk))
  }

  // ------------------------------------------------------------------- the rank

  function Count(db: Db): nat { if Recalled(db).Some? then Recalled(db).value.info.storeCount else 0 }

  function Clip(n: int): nat { if n < 0 then 0 else n }

  function GateStage(g: Gate): nat {
    match g case InstallGate => 22 case RebootGate => 17 case CommitGate => 11
  }

  /** How far a state is from its report. */
  function Stage(k: Kind): nat {
    match k
    case Fetch | FetchStoreRetry => 27
    case Store => 26
    case AfterStore => 25
    case ControlMapPause(g) => GateStage(g) + 2
    case FetchControlMap(g, _) => GateStage(g) + 1
    case FetchRetryControlMap(g, _) => GateStage(g) + 1
    case ControlMap(g, _) => GateStage(g)
    case Install => 21
    case RebootPauseRequested => 20
    case Reboot => 16
    case VerifyReboot => 15
    case AfterReboot => 14
    case Commit(_) | PreCommitRetry(_) => 10
    case AfterFirstCommit => 9
    case AfterCommit => 8
    case Rollback => 7
    case RollbackReboot => 6
    case VerifyRollbackReboot => 5
    case AfterRollbackReboot => 4
    case UpdateError => 3
    case Cleanup(success) => if success then 2 else 1
    case _ => 0
  }

  function RetriesLeft(cfg: Config, attempts: nat): nat {
    Clip(Backoff.Budget(cfg.updatePoll, cfg.retryCount, cfg.unit) - attempts)
  }

  /** What is left of the retries of one stage. */
  function Retries(cfg: Config, k: Kind, vol: Volatile): nat {
    match k
    case Fetch => 2 * RetriesLeft(cfg, vol.fetchAttempts) + 1
    case FetchStoreRetry => 2 * RetriesLeft(cfg, vol.fetchAttempts)
    case FetchControlMap(_, _) => 2 * RetriesLeft(cfg, vol.mapAttempts) + 1
    case FetchRetryControlMap(_, _) => 2 * RetriesLeft(cfg, vol.mapAttempts)
    case Commit(tries) => if tries < MaxSends(cfg) then 2 * (MaxSends(cfg) - tries) else 1
    case PreCommitRetry(tries) => if tries < MaxSends(cfg) then 2 * (MaxSends(cfg) - tries) + 1 else 0
    case _ => 0
  }

  /** Sends left in one reporting sequence, whichever of report and logs fails. */
  function SendsLeft(cfg: Config, tries: nat, logTries: nat): nat {
    Clip(MaxSends(cfg) - logTries) + Clip(MaxSends(cfg) - 1 - tries)
  }

  function ReportStage(cfg: Config, k: Kind): nat {
    match k
    case StatusReport(_, tries, logTries) => 1 + SendsLeft(cfg, tries, logTries)
    case StatusReportRetry(_, spent, sends, logSends) =>
      if spent < MaxSends(cfg) then 1 + SendsLeft(cfg, sends, logSends) else 0
    case _ => 0
  }

  predicate Ending(k: Kind) { k.IsEnding() && !k.IsReporting() }

  /** The states whose Leave scripts may stop the agent from moving on. */
  predicate LeaveMayFail(k: Kind) {
    k.AfterStore? || k.Install? || k.VerifyReboot? || k.AfterReboot? || k.AfterCommit?
  }

  /** Storing the next state will find the count at its maximum, or bring it there. */
  predicate NearLimit(m: Machine) {
    var count := CountFor(m.disk.db, m.to.info);
    count >= MAX_STORE_COUNT || (count + 1 == MAX_STORE_COUNT && Counted(m.cur.kind, m.to.kind))
  }

  /** Stores left before the loop limit; the state about to be entered is taken into account. */
  function Room(m: Machine): nat {
    Clip(3 * (32 - Count(m.disk.db))
         - (if m.to.kind.Init? then 2 else if Counted(m.cur.kind, m.to.kind) then 1 else 0))
  }

  /** A record from which a boot resumes the end of a deployment. */
  predicate Ended(db: Db) { Recalled(db).Some? && EndedId(Recalled(db).value.name) }

  predicate EndedId(name: StateId) {
    match name
    case IdRollback | IdRollbackReboot | IdVerifyRollbackReboot | IdAfterRollbackReboot => true
    case IdUpdateError | IdUpdateCleanup | IdUpdateStatusReport | IdStatusReportRetry => true
    case _ => false
  }

  /** The parts of a deployment, from the last to the first. */
  function Phase(m: Machine): nat {
    var k := m.to.kind;
    if k.IsReporting() then (if LeaveMayFail(m.cur.kind) then 3 else 0)
    else if k.Init? then (if Pending(m.disk) then 6 else if Ended(m.disk.db) then 1 else 5)
    else if Pending(m.disk) then (if Ending(k) then 2 else 4)
    else if Ending(k) && Ended(m.disk.db) then 1
    else 5
  }

  datatype Rank = Rank(phase: nat, schema: nat, room: nat, stage: nat, retries: nat)

  predicate Less(a: Rank, b: Rank) {
    if a.phase != b.phase then a.phase < b.phase
    else if a.schema != b.schema then a.schema < b.schema
    else if a.room != b.room then a.room < b.room
    else if a.stage != b.stage then a.stage < b.stage
    else a.retries < b.retries
  }

  function RankOf(cfg: Config, m: Machine): Rank {
    var k := m.to.kind;
    match Phase(m)
    case 0 => Rank(0, 0, if NearLimit(m) then 1 else 0, ReportStage(cfg, k), if k.StatusReportRetry? then 1 else 0)
    case 1 => Rank(1, if OldState(m.disk.db) then 1 else 0, Room(m), Stage(k), Retries(cfg, k, m.vol))
    case 5 => Rank(5, if OldState(m.disk.db) then 1 else 0, Room(m), Stage(k), Retries(cfg, k, m.vol))
    case phase => Rank(phase, 0, 0, if phase == 2 || phase == 4 then Stage(k) else 0,
                       if phase == 2 || phase == 4 then Retries(cfg, k, m.vol) else 0)
  }

  // ------------------------------------------------------------- the handlers

  predicate Descends(cfg: Config, k: Kind, vol: Volatile, k': Kind, vol': Volatile) {
    Stage(k') < Stage(k) || (Stage(k') == Stage(k) && Retries(cfg, k', vol') < Retries(cfg, k, vol))
  }

  /** The count went up, or the old schema was left behind. */
  predicate CountGrows(d: Disk, d': Disk) {
    && (OldState(d'.db) ==> OldState(d.db))
    && (OldState(d'.db) == OldState(d.db) ==> Count(d'.db) >= Count(d.db))
  }

  predicate DiskGrows(d: Disk, d': Disk) { (Pending(d) ==> Pending(d')) && CountGrows(d, d') }

  predicate SameSort(a: Kind, b: Kind) {
    && a.IsUpdateState() == b.IsUpdateState() && a.PermitLooping() == b.PermitLooping()
    && LeaveMayFail(a) == LeaveMayFail(b) && a.Init? == b.Init?
  }

  /** A handler comes nearer to the end: it hits the limit, reports, descends, or is one of the counted loops. */
  predicate Advances(cfg: Config, s: State, d: Disk, vol: Volatile, o: Outcome) {
    && SameSort(o.cur.kind, s.kind)
    && (Over(o.next.kind)
        || (Pending(o.disk) && o.next.kind.StatusReport?)
        || (o.next.kind.StatusReport? && !LeaveMayFail(s.kind))
        || (DiskGrows(d, o.disk) && !o.next.kind.IsReporting() && !o.next.kind.Init?
            && (Descends(cfg, s.kind, vol, o.next.kind, o.vol)
                || (s.kind.VerifyRollbackReboot? && o.next.kind.RollbackReboot?))
            && (Ending(s.kind) ==> Ending(o.next.kind))))
    && forall i :: 0 <= i < |o.cuts| ==> DiskGrows(d, o.cuts[i]) || Pending(o.cuts[i])
  }

  lemma PutGrows(d: Disk, name: StateId, info: UpdateInfo, inc: bool)
    requires DiskInv(d) && InfoInv(info, d)
    ensures var (d', r) := Put(d, name, info, inc, NoFault);
            && (r.Stored? || (r.CountExceeded? && Hit(d') && Pending(d')))
            && (r.Stored? ==> DiskGrows(d, d') && OldState(d'.db) == OldState(d.db) && d'.history == d.history
                              && Count(d'.db) >= Count(d.db) + (if inc then 1 else 0))
  {
  }

  lemma FlagGrows(d: Disk, info: UpdateInfo, ok: bool)
    ensures var d' := SetBroken(d, info, ok);
            DiskGrows(d, d') && d'.history == d.history && Count(d'.db) == Count(d.db)
              && OldState(d'.db) == OldState(d.db)
  {
  }

  /** Every HandleError leads to a state nearer the report, except that a rollback reboot is tried again. */
  lemma ErrorAdvances(cfg: Config, s: State, d: Disk, fatal: bool, env: Env, vol: Volatile)
    ensures var (d', next) := HandleError(s, d, fatal, env);
            && DiskGrows(d, d') && d'.history == d.history
            && (Over(next.kind)
                || (!next.kind.IsReporting() && !next.kind.Init? && Ending(next.kind)
                    && (Stage(next.kind) < Stage(s.kind) || (s.kind.VerifyRollbackReboot? && next.kind.RollbackReboot?)
                        || s.kind.Cleanup? || s.kind.StatusReport? || s.kind.AfterRollbackReboot?)))
  {
    hide Recalled, OldState;
    FlagGrows(d, s.info, env.flagOk);
  }

  lemma FailedAdvances(cfg: Config, s: State, failing: State, d: Disk, vol: Volatile, fatal: bool, env: Env)
    requires Stage(failing.kind) <= Stage(s.kind)
    requires !failing.kind.Cleanup? && !failing.kind.StatusReport? && !failing.kind.AfterRollbackReboot?
    requires failing.kind.VerifyRollbackReboot? ==> s.kind.VerifyRollbackReboot?
    ensures Advances(cfg, s, d, vol, FailedAs(s, failing, d, vol, fatal, env))
  {
    ErrorAdvances(cfg, failing, d, fatal, env, vol);
  }

  lemma StoreAdvances(cfg: Config, s: State, d: Disk, vol: Volatile, env: Env)
    requires StoreWorks(env) && s.kind.Store? && Ready(s, d, vol)
    ensures Advances(cfg, s, d, vol, HandleStore(s, d, vol, env))
  {
    if env.logger && !env.report.Fatal? && env.headers.Some? && env.headersMatch && env.dependsMet {
      var s1 := State(Store, WithHeaders(s.info.(payloadTypes := env.headers.value), env));
      StoreHeadersAdvances(cfg, s, s1, d, vol, vol.(installers := |env.headers.value|), env);
    }
  }

  lemma StoreHeadersAdvances(cfg: Config, s0: State, s: State, d: Disk, vol0: Volatile, vol: Volatile, env: Env)
    requires StoreWorks(env) && s0.kind.Store? && s.kind.Store? && Ready(s, d, vol)
    ensures Advances(cfg, s0, d, vol0, StoreHeaders(s, d, vol, env))
  {
    hide StoreSupport;
    PutGrows(d, IdUpdateStore, s.info, true);
    var (d1, r) := Put(d, IdUpdateStore, s.info, true, NoFault);
    if r.Stored? {
      WriteKeepsInv(d, IdUpdateStore, s.info, true);
      MilestonesKeepInv(s, d1, vol, DownloadFacts(env));
      StoreSupportAdvances(cfg, s0, s, d, AddFacts(d1, DownloadFacts(env)), vol0, vol, env);
    }
  }

  lemma StoreSupportAdvances(cfg: Config, s0: State, s: State, d0: Disk, d: Disk, vol0: Volatile, vol: Volatile,
      env: Env)
    requires StoreWorks(env) && s0.kind.Store? && s.kind.Store? && DiskInv(d) && InfoInv(s.info, d) && DiskGrows(d0, d)
    ensures Advances(cfg, s0, d0, vol0, StoreSupport(s, d, vol, env))
  {
    var (support, ok) := CollectSupport(s.info.supportsRollback, env.rollbackAnswers, 0, vol.installers);
    PutGrows(d, IdUpdateStore, s.info.(supportsRollback := support), true);
  }

  lemma InstallAdvances(cfg: Config, s: State, d: Disk, vol: Volatile, env: Env)
    requires StoreWorks(env) && s.kind.Install? && DiskInv(d) && InfoInv(s.info, d)
    ensures Advances(cfg, s, d, vol, HandleInstall(s, d, vol, env))
  {
    hide StoreInstall, HandleError, Advances, InfoInv, DiskInv, InstallFacts, CollectReboots;
    var (requested, ok) := CollectReboots(s.info.rebootRequested, env.rebootAnswers, 0, vol.installers);
    var s1 := State(Install, s.info.(rebootRequested := requested));
    var d1 := AddFacts(d, InstallFacts(env, vol.installers));
    InstallFactsAreMilestones(env, vol.installers);
    FactsKeepDisk(s1.info, s.info, d, InstallFacts(env, vol.installers));
    FailedAdvances(cfg, s, s, d, vol, true, env);
    FailedAdvances(cfg, s, s, d1, vol, false, env);
    FailedAdvances(cfg, s1, s1, d1, vol, false, env);
    StoreInstallAdvances(cfg, s1, d1, vol, env);
    LeavesForError(cfg, s, vol);
    GotoAdvances(cfg, s, UpdateError, d, vol, vol);
    if env.logger && !env.report.Fatal? {
      var o := HandleInstall(s, d, vol, env);
      if AllSucceed(env, vol.installers) { SameKindAdvances(cfg, s, s1, d1, vol, o); }
      FactsAdvance(cfg, s, d, InstallFacts(env, vol.installers), vol, o);
    }
  }

  lemma LeavesForError(cfg: Config, s: State, vol: Volatile)
    ensures s.kind.Install? ==> Descends(cfg, s.kind, vol, UpdateError, vol)
  {
  }

  lemma SameKindAdvances(cfg: Config, s: State, s1: State, d: Disk, vol: Volatile, o: Outcome)
    requires Advances(cfg, s1, d, vol, o) && s1.kind == s.kind
    ensures Advances(cfg, s, d, vol, o)
  {
    hide Recalled, OldState;
  }

  lemma FactsKeepDisk(info: UpdateInfo, info0: UpdateInfo, d: Disk, facts: set<Fact>)
    requires DiskInv(d) && InfoInv(info0, d) && info == info0.(rebootRequested := info.rebootRequested)
    requires forall f :: f in facts ==> Milestone(f)
    ensures DiskInv(AddFacts(d, facts)) && InfoInv(info, AddFacts(d, facts))
  {
    hide Recalled;
    assert forall f :: !Milestone(f) ==> (f in AddFacts(d, facts).history.facts <==> f in d.history.facts);
  }

  /** What a handler did from a disk with more facts, it did from the one with fewer. */
  lemma FactsAdvance(cfg: Config, s: State, d: Disk, facts: set<Fact>, vol: Volatile, o: Outcome)
    requires Advances(cfg, s, AddFacts(d, facts), vol, o)
    ensures Advances(cfg, s, d, vol, o)
  {
    hide Recalled, OldState;
  }

  lemma StoreInstallAdvances(cfg: Config, s: State, d: Disk, vol: Volatile, env: Env)
    requires StoreWorks(env) && s.kind.Install? && DiskInv(d) && InfoInv(s.info, d)
    ensures Advances(cfg, s, d, vol, StoreInstall(s, d, vol, env))
  {
    hide HandleError, Recalled, OldState, KindInv, InfoInv, Put, Retries;
    PutGrows(d, IdUpdateInstall, s.info, true);
    ErrorAdvances(cfg, s, Put(d, IdUpdateInstall, s.info, true, NoFault).0, false, env, vol);
  }

  lemma CommitAdvances(cfg: Config, s: State, d: Disk, vol: Volatile, env: Env)
    requires StoreWorks(env) && s.kind.Commit? && DiskInv(d) && InfoInv(s.info, d)
    ensures Advances(cfg, s, d, vol, HandleCommit(cfg, s, d, vol, env))
  {
    hide SentCommit, HandleError, Advances;
    FailedAdvances(cfg, s, s, d, vol, false, env);
    var tries := s.kind.tries + 1;
    var s1 := State(Commit(tries), s.info.(reportAttempts := AttemptsAfter(tries, env.report)));
    SentCommitAdvances(cfg, s, s1, d, vol, env);
  }

  lemma SentCommitAdvances(cfg: Config, s: State, s1: State, d: Disk, vol: Volatile, env: Env)
    requires StoreWorks(env) && s.kind.Commit? && s1.kind == Commit(s.kind.tries + 1) && DiskInv(d)
    ensures Advances(cfg, s, d, vol, SentCommit(cfg, s1, d, vol, env))
  {
    hide StoreCommit, HandleError, GivesUp;
    if env.report.Transient? {
    } else if env.report.Fatal? || (vol.installers > 0 && !Succeeds(env, 0)) {
      FailedAdvances(cfg, s1, s1, d, vol, env.report.Fatal?, env);
    } else {
      var fact := if vol.installers > 0 then Committed(0) else EmptyArtifact;
      var s2 := State(s1.kind, s1.info.(schemaUpdate := false));
      StoreCommitAdvances(cfg, s, s2, d, AddFacts(d, {fact}), vol, env);
    }
  }

  lemma StoreCommitAdvances(cfg: Config, s0: State, s: State, d0: Disk, d: Disk, vol: Volatile, env: Env)
    requires StoreWorks(env) && s0.kind.Commit? && s.kind.Commit? && !s.info.schemaUpdate
    requires DiskGrows(d0, d) && d.db == d0.db && DiskInv(d0)
    ensures Advances(cfg, s0, d0, vol, StoreCommit(cfg, s, d, vol, env))
  {
    hide GivesUp, MaxSends, CommittedArtifact, RecordInv, NameInv, CommittedNameInv;
  }

  lemma GotoAdvances(cfg: Config, s: State, kind: Kind, d: Disk, vol: Volatile, vol': Volatile)
    requires !kind.IsReporting() && !kind.Init? && (Ending(s.kind) ==> Ending(kind))
    requires Descends(cfg, s.kind, vol, kind, vol')
    ensures Advances(cfg, s, d, vol, Goto(s, kind, d, vol'))
  {
  }

  lemma ForwardAdvances(cfg: Config, s: State, d: Disk, vol: Volatile, env: Env)
    requires StoreWorks(env) && Ready(s, d, vol) && !s.kind.IsPolling() && !s.kind.IsGate() && !s.kind.IsEnding()
    ensures Advances(cfg, s, d, vol, HandleForward(cfg, s, d, vol, env))
  {
    hide HandleStore, HandleInstall, HandleCommit, HandleError, ScanReboots, Advances, Failed, FailedAs, Goto, Stage;
    match s.kind
    case Fetch => FetchAdvances(cfg, s, d, vol, env);
    case FetchStoreRetry => FetchRetryAdvances(cfg, s, d, vol);
    case Store => StoreAdvances(cfg, s, d, vol, env);
    case AfterStore => StageIs(cfg, s, vol); GotoAdvances(cfg, s, FetchControlMap(InstallGate, false), d, vol, vol);
    case Install => InstallAdvances(cfg, s, d, vol, env);
    case RebootPauseRequested => StageIs(cfg, s, vol); GotoAdvances(cfg, s, ControlMap(RebootGate, false), d, vol, vol);
    case Reboot => RebootAdvances(cfg, s, d, vol, env);
    case VerifyReboot => RebootAdvances(cfg, s, d, vol, env);
    case AfterReboot => StageIs(cfg, s, vol); GotoAdvances(cfg, s, FetchControlMap(CommitGate, false), d, vol, vol);
    case Commit(_) => CommitAdvances(cfg, s, d, vol, env);
    case PreCommitRetry(tries) => PreCommitAdvances(cfg, s, d, vol, env);
    case AfterFirstCommit => AfterFirstCommitAdvances(cfg, s, d, vol, env);
    case AfterCommit => StageIs(cfg, s, vol); GotoAdvances(cfg, s, Cleanup(true), d, vol, vol);
  }

  lemma StageIs(cfg: Config, s: State, vol: Volatile)
    ensures s.kind.AfterStore? ==> Descends(cfg, s.kind, vol, FetchControlMap(InstallGate, false), vol)
    ensures s.kind.RebootPauseRequested? ==> Descends(cfg, s.kind, vol, ControlMap(RebootGate, false), vol)
    ensures s.kind.AfterReboot? ==> Descends(cfg, s.kind, vol, FetchControlMap(CommitGate, false), vol)
    ensures s.kind.AfterCommit? ==> Descends(cfg, s.kind, vol, Cleanup(true), vol)
  {
  }

  lemma FetchAdvances(cfg: Config, s: State, d: Disk, vol: Volatile, env: Env)
    requires s.kind.Fetch?
    ensures Advances(cfg, s, d, vol, HandleFetch(s, d, vol, env))
  {
  }

  lemma FetchRetryAdvances(cfg: Config, s: State, d: Disk, vol: Volatile)
    requires s.kind.FetchStoreRetry?
    ensures Advances(cfg, s, d, vol, HandleFetchStoreRetry(cfg, s, d, vol))
  {
    RetriesRunOut(cfg, vol.fetchAttempts);
  }

  lemma RebootAdvances(cfg: Config, s: State, d: Disk, vol: Volatile, env: Env)
    requires s.kind.Reboot? || s.kind.VerifyReboot?
    ensures s.kind.Reboot? ==> Advances(cfg, s, d, vol, HandleReboot(s, d, vol, env))
    ensures s.kind.VerifyReboot? ==> Advances(cfg, s, d, vol, HandleVerifyReboot(s, d, vol, env))
  {
    hide HandleError, ScanReboots, Advances, Goto, FailedAs, VerifyFacts;
    FailedAdvances(cfg, s, s, d, vol, false, env);
    if s.kind.Reboot? {
      GotoAdvances(cfg, s, Rollback, d, vol, vol);
      GotoAdvances(cfg, s, VerifyReboot, d, vol, vol);
    } else {
      var facts := VerifyFacts(env, vol.installers);
      GotoAdvances(cfg, s, AfterReboot, AddFacts(d, facts), vol, vol);
      FailedAdvances(cfg, s, s, AddFacts(d, facts), vol, false, env);
      FactsAdvance(cfg, s, d, facts, vol, HandleVerifyReboot(s, d, vol, env));
    }
  }

  lemma PreCommitAdvances(cfg: Config, s: State, d: Disk, vol: Volatile, env: Env)
    requires s.kind.PreCommitRetry?
    ensures Advances(cfg, s, d, vol, HandlePreCommitRetry(cfg, s, d, vol, env))
  {
    hide HandleError, Advances, Goto, FailedAs;
    var tries := s.kind.tries;
    if tries < MaxSends(cfg) { GotoAdvances(cfg, s, Commit(tries), d, vol, vol); }
    else { FailedAdvances(cfg, s, State(Commit(tries), s.info), d, vol, false, env); }
  }

  lemma AfterFirstCommitAdvances(cfg: Config, s: State, d: Disk, vol: Volatile, env: Env)
    requires s.kind.AfterFirstCommit?
    ensures Advances(cfg, s, d, vol, HandleAfterFirstCommit(s, d, vol, env))
  {
    var d1 := AddFacts(d, CommitFacts(env, 1, vol.installers));
    assert DiskGrows(d, d1) && Count(d1.db) == Count(d.db) && OldState(d1.db) == OldState(d.db);
    ErrorAdvances(cfg, s, d1, false, env, vol);
  }

  lemma RetriesRunOut(cfg: Config, attempts: nat)
    ensures !GivesUp(cfg, attempts) ==> RetriesLeft(cfg, attempts + 1) < RetriesLeft(cfg, attempts)
  {
    Backoff.GivesUpExactlyAtBudget(attempts, cfg.updatePoll, cfg.retryCount, cfg.unit);
  }

  lemma FetchGateAdvances(cfg: Config, s: State, d: Disk, vol: Volatile, env: Env)
    requires s.kind.FetchControlMap? || s.kind.FetchRetryControlMap?
    ensures s.kind.FetchControlMap? ==> Advances(cfg, s, d, vol, HandleFetchControlMap(s, d, vol, env))
    ensures s.kind.FetchRetryControlMap? ==> Advances(cfg, s, d, vol, HandleFetchRetryControlMap(cfg, s, d, vol, env))
  {
    hide HandleError, Advances, Goto, FailedAs, Retries;
    var g, pause := s.kind.gate, s.kind.pauseState;
    FailedAdvances(cfg, s, State(Wrapped(g), s.info), d, vol, false, env);
    FetchGateDescends(cfg, g, pause, vol);
    if s.kind.FetchControlMap? {
      GotoAdvances(cfg, s, FetchRetryControlMap(g, pause), d, vol, vol);
      GotoAdvances(cfg, s, ControlMap(g, pause), d, vol, vol.(mapAttempts := 0));
    } else if !GivesUp(cfg, vol.mapAttempts) {
      GotoAdvances(cfg, s, FetchControlMap(g, pause), d, vol, vol.(mapAttempts := vol.mapAttempts + 1));
    }
  }

  lemma ControlMapAdvances(cfg: Config, s: State, d: Disk, vol: Volatile, env: Env)
    requires s.kind.ControlMap? && !env.action.Pause?
    ensures Advances(cfg, s, d, vol, HandleControlMap(s, d, vol, env))
  {
    hide HandleError, Advances, Goto, FailedAs, Retries;
    FailedAdvances(cfg, s, State(Wrapped(s.kind.gate), s.info), d, vol, false, env);
    GotoAdvances(cfg, s, Wrapped(s.kind.gate), d, vol, vol);
  }

  lemma GateAdvances(cfg: Config, s: State, d: Disk, vol: Volatile, env: Env)
    requires s.kind.IsGate() && !env.action.Pause?
    ensures Advances(cfg, s, d, vol, HandleGate(cfg, s, d, vol, env))
  {
    hide Advances, Goto, HandleFetchControlMap, HandleFetchRetryControlMap, HandleControlMap, Retries;
    match s.kind
    case FetchControlMap(_, _) => FetchGateAdvances(cfg, s, d, vol, env);
    case FetchRetryControlMap(_, _) => FetchGateAdvances(cfg, s, d, vol, env);
    case ControlMap(_, _) => ControlMapAdvances(cfg, s, d, vol, env);
    case ControlMapPause(g) =>
      GotoAdvances(cfg, s, FetchControlMap(g, false), d, vol, vol);
      GotoAdvances(cfg, s, ControlMap(g, false), d, vol, vol);
  }

  lemma FetchGateDescends(cfg: Config, g: Gate, pause: bool, vol: Volatile)
    ensures Descends(cfg, FetchControlMap(g, pause), vol, FetchRetryControlMap(g, pause), vol)
    ensures Descends(cfg, FetchControlMap(g, pause), vol, ControlMap(g, pause), vol.(mapAttempts := 0))
    ensures !GivesUp(cfg, vol.mapAttempts) ==>
              Descends(cfg, FetchRetryControlMap(g, pause), vol, FetchControlMap(g, pause),
                       vol.(mapAttempts := vol.mapAttempts + 1))
  {
    RetriesRunOut(cfg, vol.mapAttempts);
  }

  lemma EndingAdvances(cfg: Config, s: State, d: Disk, vol: Volatile, env: Env)
    requires Ending(s.kind)
    ensures Advances(cfg, s, d, vol, HandleEnding(cfg, s, d, vol, env))
  {
    hide HandleError, Advances, Goto, FailedAs, HandleCleanup;
    match s.kind
    case Rollback => RollbackAdvances(cfg, s, d, vol, env);
    case RollbackReboot => GotoAdvances(cfg, s, VerifyRollbackReboot, d, vol, vol);
    case VerifyRollbackReboot =>
      if AllSucceed(env, vol.installers) { GotoAdvances(cfg, s, AfterRollbackReboot, d, vol, vol); }
      else { FailedAdvances(cfg, s, s, d, vol, false, env); }
    case AfterRollbackReboot => GotoAdvances(cfg, s, UpdateError, d, vol, vol);
    case UpdateError => GotoAdvances(cfg, s, Cleanup(false), d, vol, vol);
    case Cleanup(_) => CleanupAdvances(cfg, s, d, vol, env);
  }

  lemma RollbackAdvances(cfg: Config, s: State, d: Disk, vol: Volatile, env: Env)
    requires s.kind.Rollback?
    ensures Advances(cfg, s, d, vol, HandleRollback(s, d, vol, env))
  {
    hide QueryReboots, WantsReboot, HandleError, GivesUp, Count, OldState;
    FailedAdvances(cfg, s, s, d, vol, true, env);
  }

  lemma CleanupAdvances(cfg: Config, s: State, d: Disk, vol: Volatile, env: Env)
    requires s.kind.Cleanup?
    ensures Advances(cfg, s, d, vol, HandleCleanup(s, d, vol, env))
  {
  }

  // -------------------------------------------------------------- the whole step

  predicate Active(m: Machine) { !Over(m.to.kind) && Orderly(m) && Inv(m) }

  predicate Calmly(c: Choice) { Benign(c) && NoPause(c) }

  /** The step ends the deployment or lowers the rank. */
  predicate Nearer(cfg: Config, m: Machine, m': Machine) {
    (Over(m'.to.kind) || Less(RankOf(cfg, m'), RankOf(cfg, m))) && Orderly(m')
  }

  /** What storing the state about to be entered did to the disk. */
  predicate Entered(m: Machine, d: Disk) {
    && CountGrows(m.disk, d) && OldState(d.db) == OldState(m.disk.db)
    && Count(d.db) >= Count(m.disk.db) + (if Counted(m.cur.kind, m.to.kind) then 1 else 0)
    && (m.to.kind.IsUpdateState() ==> Count(d.db) <= MAX_STORE_COUNT)
    && (if m.to.kind.IsEnding() then !Pending(d) else Pending(d) == Pending(m.disk))
    && (Ending(m.to.kind) ==> Ended(d.db))
  }

  /** What the handler of a state that ends a deployment, or its error handling, leaves behind. */
  predicate KeepsEnd(d: Disk, o: Outcome) {
    o.cuts == [] && Pending(o.disk) == Pending(d) && Ended(o.disk.db) == Ended(d.db)
  }

  lemma EndingKeepsEnd(cfg: Config, s: State, d: Disk, vol: Volatile, env: Env)
    requires Ending(s.kind)
    ensures KeepsEnd(d, Handle(cfg, s, d, vol, env))
  {
    hide HandleError, QueryReboots, WantsReboot, MaxSends, Ended, AllSucceed;
    Recovery.PlainHandlerSameRecord(cfg, s, d, vol, env);
    SameRecordSameEnd(d, Handle(cfg, s, d, vol, env).disk);
    FlagGrows(d, s.info, env.flagOk);
    EndingKeepsHistory(cfg, s, d, vol, env);
  }

  lemma EndingKeepsHistory(cfg: Config, s: State, d: Disk, vol: Volatile, env: Env)
    requires Ending(s.kind)
    ensures Pending(Handle(cfg, s, d, vol, env).disk) == Pending(d)
  {
    hide QueryReboots, WantsReboot, MaxSends, AllSucceed;
  }

  lemma SameRecordSameEnd(d: Disk, d': Disk)
    requires Recovery.SameRecord(d, d')
    ensures Ended(d'.db) == Ended(d.db)
  {
  }

  lemma FailureKeepsEnd(s: State, d: Disk, vol: Volatile, env: Env)
    ensures KeepsEnd(d, Failed(s, d, vol, false, env))
  {
    hide Ended;
    Recovery.HandleErrorSameRecord(s, d, false, env);
    SameRecordSameEnd(d, HandleError(s, d, false, env).0);
  }

  /** A handler of an ordinary state, entered with the disk that its entry stored. */
  lemma HandlingDrops(cfg: Config, m: Machine, d: Disk, o: Outcome)
    requires Active(m) && !m.to.kind.Init? && !m.to.kind.IsReporting()
    requires Entered(m, d) && (Ending(m.to.kind) ==> KeepsEnd(d, o))
    requires Advances(cfg, m.to, d, m.vol, o)
    ensures Nearer(cfg, m, Machine(o.cur, o.next, o.disk, o.vol))
  {
    hide Inv, Recalled, Retries, NearLimit, ReportStage;
  }

  /** What storing the new state does to the disk. */
  lemma EntryCounts(m: Machine, env: Env)
    requires StoreWorks(env) && Inv(m) && m.to.kind.IsUpdateState()
    ensures var (d, r) := StoreNewState(m, env);
            && (r.Stored? || (r.CountExceeded? && Hit(d) && Pending(d)))
            && (r.Stored? ==> Entered(m, d) && Hit(d) == Hit(m.disk))
  {
    hide KindInv, RecordInv, NameInv, CommittedNameInv, Ended, InfoInv, Recalled;
    var (d, r) := Put(m.disk, m.to.kind.Id(), m.to.info, Counted(m.cur.kind, m.to.kind), NoFault);
    PutGrows(m.disk, m.to.kind.Id(), m.to.info, Counted(m.cur.kind, m.to.kind));
    PutFits(m.disk, m.to.kind.Id(), m.to.info, Counted(m.cur.kind, m.to.kind));
    Recovery.PutNames(m.disk, m.to.kind.Id(), m.to.info, Counted(m.cur.kind, m.to.kind));
    NoteStoredSettles(d, m.to.kind, m.vol, r);
    if Ending(m.to.kind) { EndingIsEnded(m.to.kind, d.db); }
  }

  lemma PutFits(d: Disk, name: StateId, info: UpdateInfo, inc: bool)
    requires DiskInv(d) && InfoInv(info, d)
    ensures var (d', r) := Put(d, name, info, inc, NoFault); r.Stored? ==> Count(d'.db) <= MAX_STORE_COUNT
  {
  }

  lemma NoteStoredSettles(d: Disk, to: Kind, vol: Volatile, r: StoreResult)
    ensures var d' := NoteStored(d, to, vol, r);
            && d'.db == d.db && Hit(d') == Hit(d)
            && Pending(d') == (Pending(d) && !(r.Stored? && to.IsEnding()))
  {
  }

  lemma EndingIsEnded(k: Kind, db: Db)
    requires Ending(k) && Recovery.Names(db, k.Id())
    ensures Ended(db)
  {
  }

  lemma HandlerAdvances(cfg: Config, s: State, d: Disk, vol: Volatile, env: Env)
    requires StoreWorks(env) && !env.action.Pause? && Ready(s, d, vol)
    requires !s.kind.IsPolling() && !s.kind.IsReporting()
    ensures Advances(cfg, s, d, vol, Handle(cfg, s, d, vol, env))
  {
    hide Advances, HandleForward, HandleEnding, HandleGate, HandlePolling;
    if s.kind.IsGate() { GateAdvances(cfg, s, d, vol, env); }
    else if s.kind.IsEnding() { EndingAdvances(cfg, s, d, vol, env); }
    else { ForwardAdvances(cfg, s, d, vol, env); }
  }

  /** Enter scripts can only stop a state that has an error handling leading further. */
  lemma EnterFailureAdvances(cfg: Config, m: Machine, d: Disk, env: Env)
    requires env.errorScripts && !EnterPasses(m.cur.kind, m.to.kind, env)
    requires !m.to.kind.IsPolling() && !m.to.kind.IsReporting()
    ensures Advances(cfg, m.to, d, m.vol, Failed(m.to, d, m.vol, false, env))
  {
    hide Advances, HandleError, FailedAs;
    FailedAdvances(cfg, m.to, m.to, d, m.vol, false, env);
  }

  /** A disk that a power loss in a step leaves, apart from the one the step started with. */
  predicate Leavable(m: Machine, d: Disk) {
    Pending(d) || (CountGrows(m.disk, d) && if Ending(m.to.kind) then Ended(d.db) else !Pending(m.disk))
  }

  lemma EnteredIsLeavable(m: Machine, d: Disk)
    requires Entered(m, d) && !m.to.kind.IsReporting()
    ensures Leavable(m, d) && forall d' :: Pending(d') ==> Leavable(m, d')
    ensures !Ending(m.to.kind) ==> forall d' :: DiskGrows(d, d') ==> Leavable(m, d')
  {
    hide OldState, Count;
  }

  lemma EnteringDrops(cfg: Config, m: Machine, d: Disk, env: Env)
    requires Active(m) && StoreWorks(env) && env.errorScripts && !env.action.Pause? && Ready(m.to, d, m.vol)
    requires !m.to.kind.Init? && !m.to.kind.IsReporting() && Entered(m, d)
    ensures var o := EnterAndHandle(cfg, m, d, env);
            && Nearer(cfg, m, Machine(o.cur, o.next, o.disk, o.vol))
            && forall i :: 0 <= i < |o.cuts| ==> Leavable(m, o.cuts[i])
  {
    hide Handle, HandleError, FailedAs, Inv, Ready, Nearer, DiskGrows, Leavable, Entered;
    EnteredIsLeavable(m, d);
    if EnterPasses(m.cur.kind, m.to.kind, env) {
      HandlerAdvances(cfg, m.to, d, m.vol, env);
      if Ending(m.to.kind) { EndingKeepsEnd(cfg, m.to, d, m.vol, env); }
      HandlingDrops(cfg, m, d, Handle(cfg, m.to, d, m.vol, env));
    } else {
      EnterFailureAdvances(cfg, m, d, env);
      FailureKeepsEnd(m.to, d, m.vol, env);
      HandlingDrops(cfg, m, d, Failed(m.to, d, m.vol, false, env));
    }
  }

  /** The loop limit: a report is due. */
  lemma LimitDrops(cfg: Config, m: Machine, o: Outcome)
    requires Active(m) && m.to.kind.IsUpdateState() && NearLimit(m) && CountFor(m.disk.db, m.to.info) >= MAX_STORE_COUNT
    requires o.cur == m.to && Pending(o.disk) && o.next.kind == StatusReport(false, 0, 0)
    requires CountFor(o.disk.db, o.next.info) <= 1
    ensures Nearer(cfg, m, Machine(o.cur, o.next, o.disk, o.vol))
  {
    hide Inv, Recalled, Retries;
  }

  lemma LimitOutcome(m: Machine, env: Env)
    requires StoreWorks(env) && Inv(m) && m.to.kind.IsUpdateState() && StoreNewState(m, env).1.CountExceeded?
    ensures CountFor(m.disk.db, m.to.info) >= MAX_STORE_COUNT
    ensures var (d, r) := StoreNewState(m, env);
            var (d1, next) := HandleError(m.to, d, true, env);
            var (d2, next2) := AfterStoreError(d1, next, m.to.info, r, env.flagOk);
            && Hit(d) && Hit(d1) && Hit(d2) && Pending(d) && Pending(d1) && Pending(d2)
            && next2 == State(StatusReport(false, 0, 0), m.to.info) && CountFor(d2.db, m.to.info) <= 1
  {
    hide KindInv, RecordInv, NameInv, CommittedNameInv, Recalled;
    ErrorKeepsFacts(m.to, StoreNewState(m, env).0, true, env);
  }

  /** An ordinary state is entered. */
  lemma EntryDrops(cfg: Config, m: Machine, env: Env)
    requires Active(m) && StoreWorks(env) && env.errorScripts && !env.action.Pause?
    requires m.to.kind == Cleanup(true) ==> CommitLeaveOk in m.disk.history.facts
    requires !m.to.kind.Init? && !m.to.kind.IsReporting()
    ensures var o := EnterState(cfg, m, env);
            && Nearer(cfg, m, Machine(o.cur, o.next, o.disk, o.vol))
            && forall i :: 0 <= i < |o.cuts| ==> Leavable(m, o.cuts[i])
  {
    hide EnterAndHandle, HandleError, KindInv, InfoInv, DiskInv, Nearer, NearLimit, Entered, CountGrows, Ended;
    if m.to.kind.IsUpdateState() {
      EntryCounts(m, env);
      StoreNewStateKeepsInv(m, env);
      var (d, r) := StoreNewState(m, env);
      if r.Stored? {
        EnteredIsLeavable(m, d);
        EnteringDrops(cfg, m, d, env);
      } else {
        LimitOutcome(m, env);
        LimitIsNear(m);
        LimitDrops(cfg, m, EnterState(cfg, m, env));
      }
    } else {
      WaitingIsEntered(m);
      EnteringDrops(cfg, m, m.disk, env);
    }
  }

  lemma WaitingIsEntered(m: Machine)
    requires !m.to.kind.IsUpdateState()
    ensures Entered(m, m.disk)
  {
  }

  lemma LimitIsNear(m: Machine)
    requires CountFor(m.disk.db, m.to.info) >= MAX_STORE_COUNT
    ensures NearLimit(m)
  {
  }

  // ------------------------------------------------------- reporting and boot

  lemma ReportHandlerDescends(cfg: Config, s: State, d: Disk, vol: Volatile, env: Env)
    requires s.kind.IsReporting()
    ensures var o := Handle(cfg, s, d, vol, env);
            && o.disk == d && o.cuts == [] && o.cur.kind.IsReporting()
            && (s.kind.StatusReport? <==> o.cur.kind.StatusReport?)
            && o.cur.info.schemaUpdate == s.info.schemaUpdate
            && (o.next.kind.Idle?
                || (o.next.kind.IsReporting() && o.next.info == o.cur.info
                    && (o.next.kind.StatusReport? != s.kind.StatusReport?)
                    && (ReportStage(cfg, o.next.kind) < ReportStage(cfg, s.kind)
                        || (ReportStage(cfg, o.next.kind) == ReportStage(cfg, s.kind) && s.kind.StatusReportRetry?))))
  {
  }

  /** Storing a reporting state moves the count by at most one and never brings the limit nearer unannounced. */
  lemma ReportEntryCounts(m: Machine, env: Env)
    requires StoreWorks(env) && Inv(m) && m.to.kind.IsReporting()
    ensures var (d, r) := StoreNewState(m, env);
            r.Stored? ==> forall info: UpdateInfo :: info.schemaUpdate == m.to.info.schemaUpdate ==>
              CountFor(d.db, info) == CountFor(m.disk.db, m.to.info) + (if Counted(m.cur.kind, m.to.kind) then 1 else 0)
    ensures StoreNewState(m, env).1.Stored? ==> CountFor(m.disk.db, m.to.info) < MAX_STORE_COUNT
  {
    hide KindInv, RecordInv, NameInv, CommittedNameInv, Recalled;
  }

  lemma ReportDrops(cfg: Config, m: Machine, env: Env)
    requires Active(m) && StoreWorks(env) && m.to.kind.IsReporting()
    ensures var o := EnterState(cfg, m, env); Nearer(cfg, m, Machine(o.cur, o.next, o.disk, o.vol))
  {
    hide Handle, HandleError, KindInv, InfoInv, DiskInv, Stage, Retries, Room, ReportStage;
    EntryCounts(m, env);
    ReportEntryCounts(m, env);
    var (d, r) := StoreNewState(m, env);
    if r.Stored? {
      ReportHandlerDescends(cfg, m.to, d, m.vol, env);
    } else {
      LimitOutcome(m, env);
      LimitIsNear(m);
      LimitDrops(cfg, m, EnterState(cfg, m, env));
    }
  }

  lemma LoadCounts(d: Disk)
    requires DiskInv(d)
    ensures var (db, loaded) := LoadStateData(d.db, NoFault);
            && (loaded.NotFound? || loaded.Loaded? || loaded.LoadExceeded?)
            && (loaded.Loaded? ==> Count(d.db) < MAX_STORE_COUNT && Count(db) == Count(d.db) + 1
                                   && OldState(db) == OldState(d.db) && Ended(db) == Ended(d.db)
                                   && (Ended(d.db) ==> EndedId(loaded.record.name)))
  {
  }

  lemma ResumeCounts(r: Record, d: Disk, env: Env)
    requires env.removeOk
    ensures var (d', next) := Resume(r, d, env);
            && d'.history == d.history && !next.kind.Init?
            && (Over(next.kind)
                || (Count(d'.db) == Count(d.db) && OldState(d'.db) == OldState(d.db) && Ended(d'.db) == Ended(d.db)))
            && (EndedId(r.name) ==> next.kind.IsEnding())
  {
    FlagGrows(d, r.info, env.flagOk);
  }

  lemma BootDrops(cfg: Config, m: Machine, env: Env)
    requires Active(m) && StoreWorks(env) && m.to.kind.Init?
    ensures var o := HandleInit(m.to, m.disk, m.vol, env);
            && Nearer(cfg, m, Machine(o.cur, o.next, o.disk, o.vol))
            && forall i :: 0 <= i < |o.cuts| && !Pending(o.cuts[i]) ==>
                 Less(RankOf(cfg, Boot(o.cuts[i])), RankOf(cfg, m))
  {
    hide LoadStateData, Resume, Recalled, KindInv, InfoInv, Retries, Stage, NearLimit, ReportStage, OldState,
         EndedId, Ended;
    LoadCounts(m.disk);
    var (db, loaded) := LoadStateData(m.disk.db, NoFault);
    if loaded.Loaded? {
      var d1 := NoteResume(LimitSettled(m.disk.(db := db)), loaded.record);
      ResumeCounts(loaded.record, d1, env);
    }
  }

  // --------------------------------------------------- scripts and power losses

  lemma LeaveFailureDrops(cfg: Config, m: Machine, env: Env)
    requires Active(m) && env.errorScripts && !LeavePasses(m.cur.kind, m.to.kind, env)
    ensures var o := Failed(m.cur, m.disk, m.vol, false, env); Nearer(cfg, m, Machine(o.cur, o.next, o.disk, o.vol))
  {
    hide HandleError, RankOf, KindInv, InfoInv, DiskInv, OldState, Recalled;
    LeaveStops(m.cur.kind, m.to.kind, env);
    LeaveErrorDescends(m.cur, m.disk, env);
    FailureKeepsEnd(m.cur, m.disk, m.vol, env);
    if LeaveMayFail(m.cur.kind) {
      var (d, next) := HandleError(m.cur, m.disk, false, env);
      TurnBackDrops(cfg, m, d, next);
    }
  }

  /** Turning back from a transition that Leave scripts stopped. */
  lemma TurnBackDrops(cfg: Config, m: Machine, d: Disk, next: State)
    requires !m.to.kind.Init? && LeaveMayFail(m.cur.kind) && Orderly(m)
    requires Ending(m.to.kind) ==> m.to.kind == Cleanup(true)
    requires d.history == m.disk.history && OldState(d.db) == OldState(m.disk.db) && Count(d.db) == Count(m.disk.db)
    requires Ended(d.db) == Ended(m.disk.db)
    requires next.kind == Cleanup(false) || next.kind.Rollback? || next.kind.UpdateError?
    requires next.kind.Rollback? || next.kind.UpdateError? ==> !m.cur.kind.AfterCommit?
    requires m.to.kind == Cleanup(true) ==> m.cur.kind.AfterCommit?
    requires !Over(m.to.kind)
    ensures Less(RankOf(cfg, Machine(m.cur, next, d, m.vol)), RankOf(cfg, m))
  {
    hide OldState, Recalled, Count, NearLimit, ReportStage, Retries, Ended;
  }

  /** The transitions that failing Leave scripts can stop. */
  lemma LeaveStops(from: Kind, to: Kind, env: Env)
    requires env.errorScripts && !LeavePasses(from, to, env)
    ensures from.UpdateCheck? || LeaveMayFail(from)
    ensures LeaveMayFail(from) && Ending(to) ==> to == Cleanup(true)
  {
  }

  lemma LeaveErrorDescends(cur: State, d: Disk, env: Env)
    requires cur.kind.UpdateCheck? || LeaveMayFail(cur.kind)
    ensures var (d', next) := HandleError(cur, d, false, env);
            && d'.history == d.history && OldState(d'.db) == OldState(d.db) && Count(d'.db) == Count(d.db)
            && (cur.kind.UpdateCheck? ==> Over(next.kind))
            && (LeaveMayFail(cur.kind) ==>
                  if cur.kind.AfterStore? || cur.kind.AfterCommit? then next.kind == Cleanup(false)
                  else next.kind.Rollback? || next.kind.UpdateError?)
  {
    FlagGrows(d, cur.info, env.flagOk);
  }

  lemma TransitionDrops(cfg: Config, m: Machine, env: Env)
    requires Active(m) && StoreWorks(env) && env.errorScripts && !env.action.Pause?
    ensures var o := TransitionState(cfg, m, env);
            && Nearer(cfg, m, Machine(o.cur, o.next, o.disk, o.vol))
            && (!m.to.kind.Init? && !m.to.kind.IsReporting() ==>
                  forall i :: 0 <= i < |o.cuts| ==> Leavable(m, o.cuts[i]))
            && (m.to.kind.Init? ==>
                  forall i :: 0 <= i < |o.cuts| && !Pending(o.cuts[i]) ==>
                    Less(RankOf(cfg, Boot(o.cuts[i])), RankOf(cfg, m)))
  {
    hide EnterState, Inv, RankOf, HandleInit, Leavable, HandleError;
    if !LeavePasses(m.cur.kind, m.to.kind, env) {
      LeaveFailureDrops(cfg, m, env);
    } else {
      LeftKeepsInv(m);
      LeftKeepsRank(cfg, m);
      if m.to.kind.Init? {
        BootDrops(cfg, m, env);
        BootEntersDirectly(cfg, m, env);
      } else if m.to.kind.IsReporting() {
        ReportDrops(cfg, Left(m), env);
      } else {
        EntryDrops(cfg, Left(m), env);
      }
    }
  }

  lemma BootEntersDirectly(cfg: Config, m: Machine, env: Env)
    requires m.cur.kind.Init? && m.to.kind.Init?
    ensures Left(m) == m && EnterState(cfg, m, env) == HandleInit(m.to, m.disk, m.vol, env)
  {
    hide HandleInit;
  }

  lemma LeftKeepsRank(cfg: Config, m: Machine)
    ensures RankOf(cfg, Left(m)) == RankOf(cfg, m) && Left(m).disk.db == m.disk.db
    ensures Pending(Left(m).disk) == Pending(m.disk) && Left(m).cur == m.cur && Left(m).to == m.to
    ensures forall d :: Leavable(Left(m), d) ==> Leavable(m, d)
  {
    hide Recalled, Stage, Retries, Ended;
  }

  lemma BootLowersRank(cfg: Config, m: Machine, d: Disk)
    requires Active(m) && !m.to.kind.Init? && !m.to.kind.IsReporting()
    requires !Pending(d) && (d == m.disk || Leavable(m, d))
    ensures Less(RankOf(cfg, Boot(d)), RankOf(cfg, m))
  {
    hide Recalled, Retries, KindInv, InfoInv, DiskInv, Ended, NearLimit, ReportStage;
  }

  lemma RecountLowersRank(cfg: Config, m: Machine, d: Disk)
    requires m.to.kind.Init? && Recounted(m.disk, d) && !Forgets(m)
    ensures BelowLimit(m.disk.db) ==> Less(RankOf(cfg, m.(disk := d)), RankOf(cfg, m))
    ensures !BelowLimit(m.disk.db) ==> RankOf(cfg, m.(disk := d)) == RankOf(cfg, m)
  {
    hide Recalled, OldState;
  }

  lemma BootHasSameRank(cfg: Config, m: Machine, d: Disk)
    requires m.to.kind.Init?
    ensures RankOf(cfg, Boot(d)) == RankOf(cfg, m.(disk := d))
  {
    hide Count, Ended, OldState;
  }

  /** The loads at a start lower the rank, one by one, unless there is no record. */
  lemma StartDrops(cfg: Config, m: Machine, env: Env)
    requires Active(m) && StoreWorks(env) && !Forgets(m)
    ensures Active(Started(m, env)) && Started(m, env).to == m.to
    ensures RankOf(cfg, Started(m, env)) == RankOf(cfg, m) || Less(RankOf(cfg, Started(m, env)), RankOf(cfg, m))
    ensures m.to.kind.Init? ==>
              forall i :: 0 <= i < |StartCuts(m, env)| && !Recovery.SameRecord(m.disk, StartCuts(m, env)[i]) ==>
                Less(RankOf(cfg, Boot(StartCuts(m, env)[i])), RankOf(cfg, m))
    ensures !m.to.kind.Init? ==> Started(m, env) == m && StartCuts(m, env) == [m.disk]
  {
    hide RankOf, Recounted, Inv, CountedAtStart, Bootstrap, BelowLimit, Forgets;
    StartedKeepsInv(m, env);
    if m.to.kind.Init? {
      LoadRecounts(m.disk, env);
      BootstrapRecounts(m.disk, env);
      RecountLowersRank(cfg, m, CountedAtStart(m.disk, env));
      RecountLowersRank(cfg, m, Bootstrap(m.disk, env));
      BootHasSameRank(cfg, m, CountedAtStart(m.disk, env));
      BootHasSameRank(cfg, m, Bootstrap(m.disk, env));
      if !BelowLimit(m.disk.db) { NothingCounted(m, env); }
    }
  }

  lemma NothingCounted(m: Machine, env: Env)
    requires Inv(m) && StoreWorks(env) && m.to.kind.Init? && !Forgets(m) && !BelowLimit(m.disk.db)
    ensures Recovery.SameRecord(m.disk, CountedAtStart(m.disk, env))
    ensures Recovery.SameRecord(m.disk, Bootstrap(m.disk, env))
  {
    hide RecordInv, NameInv, CommittedNameInv, LoadProvides;
  }

  lemma LessIsTransitive(a: Rank, b: Rank, c: Rank)
    requires Less(a, b) && (b == c || Less(b, c))
    ensures Less(a, c)
  {
  }

  lemma NextDrops(cfg: Config, m: Machine, c: Choice)
    requires Active(m) && Calmly(c) && !Unproductive(cfg, m, c) && !Forgets(m)
    ensures Nearer(cfg, m, Next(cfg, m, c))
  {
    hide TransitionState, Inv, RankOf, Leavable, Less, Started, StartCuts, Recovery.SameRecord, Forgets;
    var n := Started(m, c.env);
    StartDrops(cfg, m, c.env);
    TransitionDrops(cfg, n, c.env);
    var next := Next(cfg, m, c);
    if c.Go? {
      if !Over(next.to.kind) { LessIsTransitive(RankOf(cfg, next), RankOf(cfg, n), RankOf(cfg, m)); }
    } else if m.to.kind.Init? {
      BootLossDrops(cfg, m, c);
    } else {
      BootLowersRank(cfg, m, At(Cuts(cfg, m, c.env), c.cut, m.disk));
    }
  }

  /** A power loss during a start that has loaded the record. */
  lemma BootLossDrops(cfg: Config, m: Machine, c: Choice)
    requires Active(m) && Calmly(c) && !Unproductive(cfg, m, c) && !Forgets(m)
    requires c.PowerLoss? && m.to.kind.Init?
    ensures Less(RankOf(cfg, Next(cfg, m, c)), RankOf(cfg, m))
  {
    hide TransitionState, Inv, RankOf, Less, Started, StartCuts, Forgets;
    var n := Started(m, c.env);
    StartDrops(cfg, m, c.env);
    TransitionDrops(cfg, n, c.env);
    var d := At(Cuts(cfg, m, c.env), c.cut, m.disk);
    var cuts := TransitionState(cfg, n, c.env).cuts;
    if d in cuts && !Pending(d) {
      LessIsTransitive(RankOf(cfg, Boot(d)), RankOf(cfg, n), RankOf(cfg, m));
    } else {
      assert d in StartCuts(m, c.env);
    }
  }

  // ------------------------------------------------------------------ the run

  function MachineAt(cfg: Config, m: Machine, run: nat -> Choice, n: nat): Machine {
    if n == 0 then m else Next(cfg, MachineAt(cfg, m, run, n - 1), run(n - 1))
  }

  lemma {:induction false} MachineKeepsInv(cfg: Config, m: Machine, run: nat -> Choice, n: nat)
    requires Inv(m) && Orderly(m) && forall i :: Calmly(run(i))
    ensures Inv(MachineAt(cfg, m, run, n))
  {
    hide Next, Inv;
    if n > 0 {
      MachineKeepsInv(cfg, m, run, n - 1);
      assert Works(run(n - 1)) by { assert Calmly(run(n - 1)); }
      NextKeepsInv(cfg, MachineAt(cfg, m, run, n - 1), run(n - 1));
    }
  }

  /** From a step on, no power loss is unproductive, and no start forgets the count. */
  ghost predicate SettlesAt(cfg: Config, m: Machine, run: nat -> Choice, from: nat) {
    forall i: nat :: i >= from ==>
      !Unproductive(cfg, MachineAt(cfg, m, run, i), run(i)) && !Forgets(MachineAt(cfg, m, run, i))
  }

  lemma {:induction false} DescendsToEnd(cfg: Config, m: Machine, run: nat -> Choice, from: nat,
      i: nat) returns (n: nat)
    requires Inv(m) && Orderly(m) && forall i :: Calmly(run(i))
    requires i >= from && SettlesAt(cfg, m, run, from) && Orderly(MachineAt(cfg, m, run, i))
    ensures n >= i && Over(MachineAt(cfg, m, run, n).to.kind)
    decreases RankOf(cfg, MachineAt(cfg, m, run, i)).phase, RankOf(cfg, MachineAt(cfg, m, run, i)).schema,
              RankOf(cfg, MachineAt(cfg, m, run, i)).room, RankOf(cfg, MachineAt(cfg, m, run, i)).stage,
              RankOf(cfg, MachineAt(cfg, m, run, i)).retries
  {
    hide Next, Inv, RankOf, Unproductive, Forgets;
    var now := MachineAt(cfg, m, run, i);
    if Over(now.to.kind) {
      n := i;
    } else {
      MachineKeepsInv(cfg, m, run, i);
      assert Calmly(run(i)) && !Unproductive(cfg, now, run(i)) && !Forgets(now);
      NextDrops(cfg, now, run(i));
      assert MachineAt(cfg, m, run, i + 1) == Next(cfg, now, run(i));
      if Over(MachineAt(cfg, m, run, i + 1).to.kind) {
        n := i + 1;
      } else {
        n := DescendsToEnd(cfg, m, run, from, i + 1);
      }
    }
  }

  lemma {:induction false} StaysOrderly(cfg: Config, m: Machine, run: nat -> Choice, n: nat)
    requires Inv(m) && Orderly(m) && forall i :: Calmly(run(i))
    ensures Orderly(MachineAt(cfg, m, run, n))
  {
    hide TransitionState, Inv;
    if n > 0 {
      StaysOrderly(cfg, m, run, n - 1);
      MachineKeepsInv(cfg, m, run, n - 1);
      assert Calmly(run(n - 1));
      NextIsOrderly(cfg, MachineAt(cfg, m, run, n - 1), run(n - 1));
    }
  }

  lemma NextIsOrderly(cfg: Config, m: Machine, c: Choice)
    requires Calmly(c) && Inv(m) && Orderly(m)
    ensures Orderly(Next(cfg, m, c))
  {
    hide TransitionState, Inv, RankOf, Bootstrap;
    var n := Started(m, c.env);
    StartedKeepsInv(m, c.env);
    if Over(m.to.kind) { PollingIsOrderly(cfg, n, c.env); }
    else { TransitionDrops(cfg, n, c.env); }
  }

  lemma PollingIsOrderly(cfg: Config, m: Machine, env: Env)
    requires Over(m.to.kind)
    ensures var o := TransitionState(cfg, m, env);
            !o.next.kind.Init? && (o.next.kind.IsReporting() ==> !LeaveMayFail(o.cur.kind))
  {
    hide HandleError, HandleForward, HandleEnding, HandleGate;
    forall s: State, d: Disk { ErrorIsOrderly(s, d, env); }
  }

  lemma ErrorIsOrderly(s: State, d: Disk, env: Env)
    ensures var next := HandleError(s, d, false, env).1.kind; !next.Init? && !next.IsReporting()
  {
  }

  /**
   Every deployment ends: whatever scripts, payloads and server answer, and wherever
   power is lost, an infinite run in which the database works, the Error scripts pass
   and no map asks for a pause comes back to the states between deployments, provided
   only finitely many power losses are unproductive, and only finitely many starts find
   the count at its maximum.
   */
  lemma EveryDeploymentEnds(cfg: Config, m: Machine, run: nat -> Choice, from: nat)
    requires Inv(m) && Orderly(m) && (forall i :: Calmly(run(i))) && SettlesAt(cfg, m, run, from)
    ensures exists n: nat :: n >= from && Over(MachineAt(cfg, m, run, n).to.kind)
  {
    StaysOrderly(cfg, m, run, from);
    var n := DescendsToEnd(cfg, m, run, from, from);
  }
}
