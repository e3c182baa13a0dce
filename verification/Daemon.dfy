/**
 One step of the update daemon (app/mender.go transitionState, app/state.go): run
 the scripts between two states, store the new state, run its handler. Everything
 outside the agent answers through an Env value, so a statement over all Envs
 covers every script, payload, server and database behaviour. A step also lists the
 disks that a power loss inside it can leave behind.
 */
module Daemon {
  import opened Wrappers
  import opened StateData
  import opened Datastore
  import opened UpdateStates
  import Backoff

  // ------------------------------------------------------------- environment

  datatype Reply = Landed | Transient | Fatal

  datatype MapAction = Continue | Pause | Fail | UnknownAction

  datatype Refresh = Refreshed | Aborted | RefreshFailed

  datatype Offer = NoOffer | Offered(update: UpdateInfo) | BadOffer(update: UpdateInfo) | CheckFailed

  datatype Env = Env(
    enter: bool, leave: bool,               // documented state scripts
    errorScripts: bool,                     // Enter and Leave scripts of the pseudo-state "Error"
    storeFault: Fault, handlerFault: Fault, secondFault: Fault,
    flagOk: bool, removeOk: bool, loadFault: Fault,
    logger: bool, report: Reply, laterReport: Reply, logs: Reply,
    offer: Offer, fetched: bool,
    headers: Option<seq<string>>, headersMatch: bool, dependsMet: bool,
    newGroup: Option<string>, newProvides: Option<map<string, string>>, newClears: Option<seq<string>>,
    stored: bool,                           // StorePayloads
    rollbackAnswers: seq<Option<bool>>,     // SupportsRollback per payload
    rebootAnswers: seq<Option<RebootType>>, // NeedsReboot per payload
    results: seq<bool>,                     // the payload operation of the handler, per payload
    scriptsCompatible: bool, restored: bool,
    hasMap: bool, refresh: Refresh, action: MapAction,
    mapsLeft: bool, mapChanged: bool,       // what ends a pause
    bootFault: Fault, providesRead: bool,   // HandleBootstrapArtifact: its load, its look at the provides,
    image: Option<ArtifactCommit>,          // the bootstrap Artifact, if it is there and valid,
    imageFault: Fault, unknownFault: Fault) // and its commits

  function At<T>(answers: seq<T>, n: nat, absent: T): T { if n < |answers| then answers[n] else absent }

  predicate Succeeds(env: Env, n: nat) { At(env.results, n, false) }

  predicate AllSucceed(env: Env, count: nat) { forall n: nat :: n < count ==> Succeeds(env, n) }

  type Positive = n: nat | n > 0 witness 1

  datatype Config = Config(
    updatePoll: nat, retryPoll: nat, retryCount: nat, unit: Positive, matches: Matcher)

  // ------------------------------------------------------------------ machine

  /** What has happened to the deployment in progress. */
  datatype Fact =
    | Downloaded                    // headers and dependencies were right, and every payload was stored
    | Installed(payload: nat)       // this payload's InstallUpdate returned no error
    | Verified(payload: nat)        // this payload's VerifyReboot returned no error
    | Committed(payload: nat)       // this payload's CommitUpdate returned no error
    | EmptyArtifact                 // committed with no payload at all
    | NameStored                    // the commit transaction went through
    | PastFirstCommit               // AfterFirstCommit has been stored
    | CommitLeaveOk                 // the ArtifactCommit_Leave scripts succeeded
    | CleanupOk                     // every Cleanup of the last Cleanup state succeeded
    | ResumedFlagged                // booted past the first commit with the broken name already stored
    | LimitHit                      // a store or load found the count at its maximum

  /**
   The name stored before the deployment, its own name, and its facts. limitPending: the
   loop limit has fired, and since then neither a report nor another state that ends the
   deployment has been stored, nor a record loaded. bootName: the name that a start of
   the agent has committed since then, on a device that provided nothing.
   */
  datatype History = History(
    oldName: Option<string>, newName: string, facts: set<Fact>, failedReports: nat, limitPending: bool,
    bootName: Option<string>)

  /** Facts about a deployment on its way to the commit. */
  predicate Milestone(f: Fact) { f.Downloaded? || f.Installed? || f.Verified? }

  datatype Disk = Disk(db: Db, history: History)

  /** What a restart forgets. failedReports counts sends since the last report that landed. */
  datatype Volatile = Volatile(
    fetchAttempts: nat, mapAttempts: nat, installers: nat, pauseReported: set<Gate>, failedReports: nat)

  /** The controller's state, and the state the daemon will enter next. */
  datatype Machine = Machine(cur: State, to: State, disk: Disk, vol: Volatile)

  datatype Outcome = Outcome(cur: State, next: State, disk: Disk, vol: Volatile, cuts: seq<Disk>)

  function AddFacts(d: Disk, fs: set<Fact>): Disk { d.(history := d.history.(facts := d.history.facts + fs)) }

  function DropFacts(d: Disk, fs: set<Fact>): Disk { d.(history := d.history.(facts := d.history.facts - fs)) }

  /** The loop limit fires. */
  function LimitFires(d: Disk): Disk {
    d.(history := d.history.(facts := d.history.facts + {LimitHit}, limitPending := true))
  }

  function LimitSettled(d: Disk): Disk { d.(history := d.history.(limitPending := false)) }

  // --------------------------------------------------------- database helpers

  function BrokenName(info: UpdateInfo): Option<string> { Some(info.artifactName + BROKEN_SUFFIX) }

  function WithName(d: Disk, name: Option<string>): Disk {
    d.(db := d.db.(artifact := d.db.artifact.(name := name)))
  }

  /** setBrokenArtifactFlag: a failed write is only logged. */
  function SetBroken(d: Disk, info: UpdateInfo, ok: bool): Disk {
    if ok then WithName(d, BrokenName(info)) else d
  }

  function NoteLimit(d: Disk, r: StoreResult): Disk { if r.CountExceeded? then LimitFires(d) else d }

  function Put(d: Disk, name: StateId, info: UpdateInfo, increment: bool, fault: Fault): (Disk, StoreResult) {
    var (db, r) := StoreStateData(d.db, name, info, increment, fault);
    (NoteLimit(d.(db := db), r), r)
  }

  /** RemoveStateData. */
  function RemoveRecord(d: Disk, ok: bool): Disk { if ok then d.(db := d.db.(state := None)) else d }

  /** handleStateDataError. */
  function AfterStoreError(d: Disk, next: State, info: UpdateInfo, r: StoreResult, ok: bool): (Disk, State) {
    if r.CountExceeded? then (SetBroken(d, info, ok), State(StatusReport(false, 0, 0), info)) else (d, next)
  }

  // ------------------------------------------------------------ HandleError

  function DefaultError(d: Disk, info: UpdateInfo, env: Env): (Disk, State) {
    if info.supportsRollback.Supported? then (d, State(Rollback, info))
    else (SetBroken(d, info, env.flagOk), State(UpdateError, info))
  }

  /** HandleError, with the override of each state. */
  function HandleError(s: State, d: Disk, fatal: bool, env: Env): (Disk, State) {
    match s.kind
    case Fetch => (d, State(UpdateError, s.info))
    case Store | AfterStore => (d, State(Cleanup(false), s.info))
    case AfterFirstCommit | AfterCommit => (SetBroken(d, s.info, env.flagOk), State(Cleanup(false), s.info))
    case Rollback => (SetBroken(d, s.info, env.flagOk), State(UpdateError, s.info))
    case RollbackReboot => (d, State(VerifyRollbackReboot, s.info))
    case VerifyRollbackReboot => (d, State(RollbackReboot, s.info))
    case Install | RebootPauseRequested | Reboot | VerifyReboot | AfterReboot => DefaultError(d, s.info, env)
    case Commit(_) | AfterRollbackReboot | Cleanup(_) | StatusReport(_, _, _) => DefaultError(d, s.info, env)
    case _ => (d, Polling(Error(fatal)))
  }

  // ----------------------------------------------------------- the handlers

  function Done(cur: State, next: State, d: Disk, vol: Volatile): Outcome { Outcome(cur, next, d, vol, []) }

  function Goto(cur: State, kind: Kind, d: Disk, vol: Volatile): Outcome { Done(cur, State(kind, cur.info), d, vol) }

  /** The handler of cur reports an error of this state s. */
  function FailedAs(cur: State, s: State, d: Disk, vol: Volatile, fatal: bool, env: Env): Outcome {
    var (d', next) := HandleError(s, d, fatal, env);
    Done(cur, next, d', vol)
  }

  function Failed(cur: State, d: Disk, vol: Volatile, fatal: bool, env: Env): Outcome {
    FailedAs(cur, cur, d, vol, fatal, env)
  }

  /** An offered update starts with nothing recorded about its progress. */
  function Fresh(u: UpdateInfo): UpdateInfo {
    u.(rebootRequested := [], supportsRollback := SupportUnknown, storeCount := 0,
       schemaUpdate := false, reportAttempts := 0)
  }

  function NewDeployment(d: Disk, u: UpdateInfo): Disk {
    d.(history := History(d.db.artifact.name, u.artifactName, {}, 0, false, None))
  }

  function HandleUpdateCheck(s: State, d: Disk, vol: Volatile, env: Env): Outcome {
    match env.offer
    case NoOffer => Done(s, Polling(CheckWait), d, vol)
    case CheckFailed => Done(s, Polling(Error(false)), d, vol)
    case Offered(u) =>
      Done(s, State(Fetch, Fresh(u)), NewDeployment(d, u), vol.(failedReports := 0))
    case BadOffer(u) =>
      Done(s, State(StatusReport(false, 0, 0), Fresh(u)), NewDeployment(d, u), vol.(failedReports := 0))
  }

  function HandleFetch(s: State, d: Disk, vol: Volatile, env: Env): Outcome {
    if !env.logger || env.report.Fatal? then Goto(s, StatusReport(false, 0, 0), d, vol)
    else if !env.fetched then Goto(s, FetchStoreRetry, d, vol)
    else Goto(s, Store, d, vol)
  }

  predicate GivesUp(cfg: Config, attempts: nat) {
    Backoff.Time(attempts, cfg.updatePoll, cfg.retryCount, cfg.unit).None?
  }

  function HandleFetchStoreRetry(cfg: Config, s: State, d: Disk, vol: Volatile): Outcome {
    if GivesUp(cfg, vol.fetchAttempts) then Goto(s, UpdateError, d, vol)
    else Goto(s, Fetch, d, vol.(fetchAttempts := vol.fetchAttempts + 1))
  }

  /** The header fields that the Store state copies into the update. */
  function WithHeaders(info: UpdateInfo, env: Env): UpdateInfo {
    info.(artifactGroup := if env.newGroup.Some? then env.newGroup.value else info.artifactGroup,
          newProvides := if env.newProvides.Some? then env.newProvides else info.newProvides,
          clears := env.newClears)
  }

  /** handleSupportsRollback's loop over the payloads: the support so far, and whether all agreed. */
  function CollectSupport(support: RollbackSupport, answers: seq<Option<bool>>, n: nat, count: nat)
    : (RollbackSupport, bool)
    decreases count - n
  {
    if n >= count then (support, true)
    else if At(answers, n, None).None? then (support, false)
    else
      var next := SetSupport(support, if answers[n].value then Supported else NotSupported);
      if next.None? then (support, false) else CollectSupport(next.value, answers, n + 1, count)
  }

  function HandleStore(s: State, d: Disk, vol: Volatile, env: Env): Outcome {
    if !env.logger || env.report.Fatal? then Goto(s, StatusReport(false, 0, 0), d, vol)
    else if env.headers.None? then Goto(s, Cleanup(false), d, vol)
    else
      var vol1 := vol.(installers := |env.headers.value|);
      var info1 := s.info.(payloadTypes := env.headers.value);
      if !env.headersMatch || !env.dependsMet then Goto(State(Store, info1), StatusReport(false, 0, 0), d, vol1)
      else StoreHeaders(State(Store, WithHeaders(info1, env)), d, vol1, env)
  }

  /** The payload types are stored before any payload is written. */
  function StoreHeaders(s: State, d: Disk, vol: Volatile, env: Env): Outcome {
    var (d1, r) := Put(d, IdUpdateStore, s.info, true, env.handlerFault);
    if !r.Stored? then
      var (d2, next) := AfterStoreError(d1, State(Cleanup(false), s.info), s.info, r, env.flagOk);
      Outcome(s, next, d2, vol, [d1])
    else if !env.stored then Outcome(s, State(Cleanup(false), s.info), d1, vol, [d1])
    else
      var o := StoreSupport(s, AddFacts(d1, DownloadFacts(env)), vol, env);
      o.(cuts := [d1] + o.cuts)
  }

  function DownloadFacts(env: Env): set<Fact> {
    if env.headersMatch && env.dependsMet && env.stored then {Downloaded} else {}
  }

  function StoreSupport(s: State, d: Disk, vol: Volatile, env: Env): Outcome {
    var (support, ok) := CollectSupport(s.info.supportsRollback, env.rollbackAnswers, 0, vol.installers);
    var s1 := State(Store, s.info.(supportsRollback := support));
    if !ok then Outcome(s1, State(UpdateError, s1.info), d, vol, [d])
    else
      var (d1, r) := Put(d, IdUpdateStore, s1.info, true, env.secondFault);
      if !r.Stored? then
        var (d2, next) := AfterStoreError(d1, State(UpdateError, s1.info), s1.info, r, env.flagOk);
        Outcome(s1, next, d2, vol, [d, d1])
      else
        var next := if env.laterReport.Fatal? then UpdateError else AfterStore;
        Outcome(s1, State(next, s1.info), d1, vol.(fetchAttempts := 0), [d, d1])
  }

  function HandleFetchControlMap(s: State, d: Disk, vol: Volatile, env: Env): Outcome
    requires s.kind.FetchControlMap?
  {
    if env.hasMap && env.refresh.Aborted? then
      FailedAs(s, State(Wrapped(s.kind.gate), s.info), d, vol, false, env)
    else if env.hasMap && env.refresh.RefreshFailed? then
      Goto(s, FetchRetryControlMap(s.kind.gate, s.kind.pauseState), d, vol)
    else Goto(s, ControlMap(s.kind.gate, s.kind.pauseState), d, vol.(mapAttempts := 0))
  }

  function HandleFetchRetryControlMap(cfg: Config, s: State, d: Disk, vol: Volatile, env: Env): Outcome
    requires s.kind.FetchRetryControlMap?
  {
    if GivesUp(cfg, vol.mapAttempts) then
      FailedAs(s, State(Wrapped(s.kind.gate), s.info), d, vol, false, env)
    else
      Goto(s, FetchControlMap(s.kind.gate, s.kind.pauseState), d, vol.(mapAttempts := vol.mapAttempts + 1))
  }

  function HandleControlMap(s: State, d: Disk, vol: Volatile, env: Env): Outcome
    requires s.kind.ControlMap?
  {
    var gate := s.kind.gate;
    var told := vol.(pauseReported := vol.pauseReported + {gate});
    match env.action
    case Continue => Goto(s, Wrapped(gate), d, vol)
    case UnknownAction => Goto(s, Wrapped(gate), d, vol)
    case Fail => FailedAs(s, State(Wrapped(gate), s.info), d, vol, false, env)
    case Pause =>
      if s.kind.pauseState then Goto(s, RebootPauseRequested, d, vol)
      else if gate !in vol.pauseReported && env.report.Fatal? then
        FailedAs(s, State(Wrapped(gate), s.info), d, told, true, env)
      else Goto(s, ControlMapPause(gate), d, told)
  }

  function HandleControlMapPause(s: State, d: Disk, vol: Volatile, env: Env): Outcome
    requires s.kind.ControlMapPause?
  {
    if env.mapsLeft && !env.mapChanged then Goto(s, FetchControlMap(s.kind.gate, false), d, vol)
    else Goto(s, ControlMap(s.kind.gate, false), d, vol)
  }

  /** handleRebootType's loop over the payloads: what was recorded, and whether all answered in order. */
  function CollectReboots(requested: seq<RebootType>, answers: seq<Option<RebootType>>, n: nat, count: nat)
    : (seq<RebootType>, bool)
    decreases count - n
  {
    if n >= count then (requested, true)
    else if At(answers, n, None).None? then (requested, false)
    else
      var next := SetReboot(requested, n, answers[n].value);
      if next.None? then (requested, false) else CollectReboots(next.value, answers, n + 1, count)
  }

  predicate WantsReboot(requested: seq<RebootType>, count: nat) {
    exists n: nat :: n < count && n < |requested| && !requested[n].RebootNone?
  }

  function HandleInstall(s: State, d: Disk, vol: Volatile, env: Env): Outcome {
    if !env.logger then Goto(s, UpdateError, d, vol)
    else if env.report.Fatal? then Failed(s, d, vol, true, env)
    else
      var d1 := AddFacts(d, InstallFacts(env, vol.installers));
      if !AllSucceed(env, vol.installers) then Failed(s, d1, vol, false, env)
      else
        var (requested, ok) := CollectReboots(s.info.rebootRequested, env.rebootAnswers, 0, vol.installers);
        var s1 := State(Install, s.info.(rebootRequested := requested));
        if !ok then Failed(s1, d1, vol, false, env) else StoreInstall(s1, d1, vol, env)
  }

  /** The payloads before the first that reports an error. */
  function InstallFacts(env: Env, count: nat): set<Fact> {
    set n: nat | n < count && AllSucceed(env, n + 1) :: Installed(n)
  }

  function VerifyFacts(env: Env, count: nat): set<Fact> {
    set n: nat | n < count && AllSucceed(env, n + 1) :: Verified(n)
  }

  /** The reboot answers are stored before the update goes on. */
  function StoreInstall(s: State, d: Disk, vol: Volatile, env: Env): Outcome {
    var (d1, r) := Put(d, IdUpdateInstall, s.info, true, env.handlerFault);
    if !r.Stored? then
      var (d2, next) := HandleError(s, d1, false, env);
      var (d3, next3) := AfterStoreError(d2, next, s.info, r, env.flagOk);
      Outcome(s, next3, d3, vol, [d1, d2])
    else
      var next := if WantsReboot(s.info.rebootRequested, vol.installers) then FetchControlMap(RebootGate, true)
                  else FetchControlMap(CommitGate, false);
      Outcome(s, State(next, s.info), d1, vol, [d1])
  }

  datatype RebootScan = ScanError | ScanFailed | ScanDone(system: bool)

  /** updateRebootState's loop over the payloads. */
  function ScanReboots(requested: seq<RebootType>, env: Env, n: nat, count: nat, system: bool): RebootScan
    decreases count - n
  {
    if n >= count then ScanDone(system)
    else if GetReboot(requested, n).None? then ScanError
    else match requested[n]
      case RebootCustom => if Succeeds(env, n) then ScanReboots(requested, env, n + 1, count, system) else ScanFailed
      case RebootAutomatic => ScanReboots(requested, env, n + 1, count, true)
      case RebootNone => ScanReboots(requested, env, n + 1, count, system)
  }

  /** A successful reboot of the host is a power loss, so a system reboot that returns has failed. */
  function HandleReboot(s: State, d: Disk, vol: Volatile, env: Env): Outcome {
    if env.report.Fatal? then Goto(s, Rollback, d, vol)
    else match ScanReboots(s.info.rebootRequested, env, 0, vol.installers, false)
      case ScanError => Failed(s, d, vol, false, env)
      case ScanFailed => Goto(s, Rollback, d, vol)
      case ScanDone(system) =>
        if system then Failed(s, d, vol, false, env) else Goto(s, VerifyReboot, d, vol)
  }

  function HandleVerifyReboot(s: State, d: Disk, vol: Volatile, env: Env): Outcome {
    var d1 := AddFacts(d, VerifyFacts(env, vol.installers));
    if AllSucceed(env, vol.installers) then Goto(s, AfterReboot, d1, vol)
    else Failed(s, d1, vol, false, env)
  }

  /** sendDeploymentStatus: the attempts kept in the update after one more send. */
  function AttemptsAfter(tries: nat, reply: Reply): nat { if reply.Landed? then 0 else tries }

  function FailuresAfter(failures: nat, reply: Reply): nat { if reply.Landed? then 0 else failures + 1 }

  function HandleCommit(cfg: Config, s: State, d: Disk, vol: Volatile, env: Env): Outcome
    requires s.kind.Commit?
  {
    if !env.scriptsCompatible then Failed(s, d, vol, false, env)
    else
      var tries := s.kind.tries + 1;
      var s1 := State(Commit(tries), s.info.(reportAttempts := AttemptsAfter(tries, env.report)));
      SentCommit(cfg, s1, d, vol, env)
  }

  /** What follows the last report before the commit. */
  function SentCommit(cfg: Config, s: State, d: Disk, vol: Volatile, env: Env): Outcome
    requires s.kind.Commit?
  {
    if env.report.Transient? then Goto(s, PreCommitRetry(s.kind.tries), d, vol)
    else if env.report.Fatal? || (vol.installers > 0 && !Succeeds(env, 0)) then
      Failed(s, d, vol, env.report.Fatal?, env)
    else
      var fact := if vol.installers > 0 then Committed(0) else EmptyArtifact;
      StoreCommit(cfg, State(s.kind, s.info.(schemaUpdate := false)), AddFacts(d, {fact}), vol, env)
  }

  /** The transaction that stores the state together with the new artifact name. */
  function StoreCommit(cfg: Config, s: State, d: Disk, vol: Volatile, env: Env): Outcome {
    var c := ArtifactCommit(s.info.artifactName, s.info.artifactGroup, s.info.newProvides, s.info.clears);
    var (db, r) := StoreStateDataAndTransaction(d.db, IdUpdateCommit, s.info, true, Some(c), cfg.matches,
                                                env.handlerFault);
    var d1 := NoteLimit(d.(db := db), r);
    var d2 := if env.handlerFault.NoFault? then AddFacts(d1, {NameStored}) else d1;
    if !r.Stored? then
      var (d3, next) := AfterStoreError(d2, State(UpdateError, s.info), s.info, r, env.flagOk);
      Outcome(s, next, d3, vol, [d, d2])
    else Outcome(s, State(AfterFirstCommit, s.info), d2, vol, [d, d2])
  }

  /** maxSendingAttempts with minReportSendRetries, plus one. */
  function MaxSends(cfg: Config): (m: nat) {
    1 + (if cfg.retryPoll == 0 then 3
         else var max := cfg.updatePoll / cfg.retryPoll;
              if max <= 3 then 3 else if 2 * max < 10 then 2 * max else 10)
  }

  function HandlePreCommitRetry(cfg: Config, s: State, d: Disk, vol: Volatile, env: Env): Outcome
    requires s.kind.PreCommitRetry?
  {
    if s.kind.tries < MaxSends(cfg) then Goto(s, Commit(s.kind.tries), d, vol)
    else FailedAs(s, State(Commit(s.kind.tries), s.info), d, vol, false, env)
  }

  function CommitFacts(env: Env, from: nat, count: nat): set<Fact> {
    set n: nat | from <= n < count && Succeeds(env, n) :: Committed(n)
  }

  function HandleAfterFirstCommit(s: State, d: Disk, vol: Volatile, env: Env): Outcome {
    var d1 := AddFacts(d, CommitFacts(env, 1, vol.installers));
    if forall n: nat :: 1 <= n < vol.installers ==> Succeeds(env, n)
    then Goto(s, AfterCommit, d1, vol)
    else Failed(s, d1, vol, false, env)
  }

  /** queryUpdateModuleReboot: errors are logged and leave the list as it is. */
  function QueryReboots(requested: seq<RebootType>, answers: seq<Option<RebootType>>, n: nat, count: nat)
    : seq<RebootType>
    decreases count - n
  {
    if n >= count then requested
    else if (n < |requested| && !requested[n].RebootNone?) || At(answers, n, None).None? then
      QueryReboots(requested, answers, n + 1, count)
    else
      var next := SetReboot(requested, n, answers[n].value);
      QueryReboots(if next.Some? then next.value else requested, answers, n + 1, count)
  }

  function HandleRollback(s: State, d: Disk, vol: Volatile, env: Env): Outcome {
    if !AllSucceed(env, vol.installers) then Failed(s, d, vol, true, env)
    else
      var s1 := State(Rollback, s.info.(rebootRequested :=
        QueryReboots(s.info.rebootRequested, env.rebootAnswers, 0, vol.installers)));
      Goto(s1, if WantsReboot(s1.info.rebootRequested, vol.installers) then RollbackReboot else UpdateError, d, vol)
  }

  function HandleVerifyRollbackReboot(s: State, d: Disk, vol: Volatile, env: Env): Outcome {
    if AllSucceed(env, vol.installers) then Goto(s, AfterRollbackReboot, d, vol)
    else Failed(s, d, vol, false, env)
  }

  function HandleCleanup(s: State, d: Disk, vol: Volatile, env: Env): Outcome
    requires s.kind.Cleanup?
  {
    var clean := AllSucceed(env, vol.installers);
    Goto(s, StatusReport(s.kind.success && clean, 0, 0),
         if clean then AddFacts(d, {CleanupOk}) else DropFacts(d, {CleanupOk}), vol.(pauseReported := {}))
  }

  function HandleStatusReport(s: State, d: Disk, vol: Volatile, env: Env): Outcome
    requires s.kind.StatusReport?
  {
    var tries := s.kind.tries + 1;
    var success := s.kind.success;
    var info := s.info.(reportAttempts := AttemptsAfter(tries, env.report));
    var s1 := State(StatusReport(success, tries, s.kind.logTries), info);
    var vol1 := vol.(failedReports := FailuresAfter(vol.failedReports, env.report));
    if env.report.Fatal? then Done(s1, Polling(Idle), d, vol1)
    else if env.report.Transient? then
      Goto(s1, StatusReportRetry(success, tries, tries, s.kind.logTries), d, vol1)
    else if success || env.logs.Fatal? then Done(s1, Polling(Idle), d, vol1)
    else
      var logTries := s.kind.logTries + 1;
      var s2 := State(StatusReport(success, tries, logTries), info);
      if env.logs.Transient? then Goto(s2, StatusReportRetry(success, logTries, tries, logTries), d, vol1)
      else Done(s2, Polling(Idle), d, vol1)
  }

  function HandleStatusReportRetry(cfg: Config, s: State, d: Disk, vol: Volatile): Outcome
    requires s.kind.StatusReportRetry?
  {
    if s.kind.spent < MaxSends(cfg) then
      Goto(s, StatusReport(s.kind.success, s.kind.sends, s.kind.logSends), d, vol)
    else Done(s, Polling(Idle), d, vol)
  }

  // ------------------------------------------------------------------- boot

  const UNKNOWN_UPDATE := NO_UPDATE.(id := "unknown")

  predicate PastCommitId(name: StateId) { name.IdUpdateAfterFirstCommit? || name.IdUpdateAfterCommit? }

  function NoteResume(d: Disk, r: Record): Disk {
    if PastCommitId(r.name) && d.db.artifact.name == BrokenName(r.info) then AddFacts(d, {ResumedFlagged}) else d
  }

  /** initState.Handle. */
  function HandleInit(s: State, d: Disk, vol: Volatile, env: Env): Outcome {
    var (db, loaded) := LoadStateData(d.db, env.loadFault);
    var d1 := d.(db := db);
    match loaded
    case NotFound => Done(s, Polling(Idle), d, vol)
    case LoadFailed => Done(s, State(UpdateError, UNKNOWN_UPDATE), d, vol)
    case LoadExceeded(r) =>
      var d2 := LimitFires(d1);
      Outcome(s, State(StatusReport(false, 0, 0), r.info), SetBroken(d2, r.info, env.flagOk), vol, [d2])
    case Loaded(r) =>
      var d2 := LimitSettled(d1);
      if !env.restored then Outcome(s, State(StatusReport(false, 0, 0), r.info), d2, vol, [d2])
      else
        var (d3, next) := Resume(r, NoteResume(d2, r), env);
        Outcome(s, next, d3, vol.(installers := |r.info.payloadTypes|, failedReports := d.history.failedReports),
                [NoteResume(d2, r)])
  }

  /** getNextState. */
  function Resume(r: Record, d: Disk, env: Env): (Disk, State) {
    var info := r.info;
    match r.name
    case IdUpdateFetch => (RemoveRecord(d, env.removeOk), Polling(if env.removeOk then Idle else Error(true)))
    case IdUpdateStore | IdUpdateAfterStore | IdUpdateCleanup => (d, State(Cleanup(false), info))
    case IdReboot => (d, State(VerifyReboot, info))
    case IdRollbackReboot | IdVerifyRollbackReboot | IdAfterRollbackReboot => (d, State(VerifyRollbackReboot, info))
    case IdUpdateAfterFirstCommit => (d, State(AfterFirstCommit, info))
    case IdUpdateAfterCommit => (d, State(AfterCommit, info))
    case IdUpdateError => (d, State(UpdateError, info))
    case IdUpdateStatusReport | IdStatusReportRetry => (d, State(StatusReport(false, info.reportAttempts, 0), info))
    case IdReportStatusError => (d, Polling(Idle))
    case _ => DefaultError(d, info, env)
  }

  function HandlePolling(s: State, d: Disk, vol: Volatile, env: Env): Outcome
    requires s.kind.IsPolling()
  {
    match s.kind
    case Init => HandleInit(s, d, vol, env)
    case Idle => Done(s, Polling(CheckWait), RemoveRecord(d, env.removeOk), vol)
    case CheckWait => Done(s, Polling(UpdateCheck), d, vol)
    case UpdateCheck => HandleUpdateCheck(s, d, vol, env)
    case Error(fatal) => Done(s, if fatal then s else Polling(Idle), d, vol)
  }

  function HandleGate(cfg: Config, s: State, d: Disk, vol: Volatile, env: Env): Outcome
    requires s.kind.IsGate()
  {
    match s.kind
    case FetchControlMap(_, _) => HandleFetchControlMap(s, d, vol, env)
    case FetchRetryControlMap(_, _) => HandleFetchRetryControlMap(cfg, s, d, vol, env)
    case ControlMap(_, _) => HandleControlMap(s, d, vol, env)
    case ControlMapPause(_) => HandleControlMapPause(s, d, vol, env)
  }

  /** The states that end a deployment. */
  function HandleEnding(cfg: Config, s: State, d: Disk, vol: Volatile, env: Env): Outcome
    requires s.kind.IsEnding()
  {
    match s.kind
    case Rollback => HandleRollback(s, d, vol, env)
    case RollbackReboot => Goto(s, VerifyRollbackReboot, d, vol)
    case VerifyRollbackReboot => HandleVerifyRollbackReboot(s, d, vol, env)
    case AfterRollbackReboot => Goto(s, UpdateError, d, vol)
    case UpdateError => Goto(s, Cleanup(false), d, vol)
    case Cleanup(_) => HandleCleanup(s, d, vol, env)
    case StatusReport(_, _, _) => HandleStatusReport(s, d, vol, env)
    case StatusReportRetry(_, _, _, _) => HandleStatusReportRetry(cfg, s, d, vol)
  }

  /** The states that take a deployment forward. */
  function HandleForward(cfg: Config, s: State, d: Disk, vol: Volatile, env: Env): Outcome
    requires !s.kind.IsPolling() && !s.kind.IsGate() && !s.kind.IsEnding()
  {
    match s.kind
    case Fetch => HandleFetch(s, d, vol, env)
    case FetchStoreRetry => HandleFetchStoreRetry(cfg, s, d, vol)
    case Store => HandleStore(s, d, vol, env)
    case AfterStore => Goto(s, FetchControlMap(InstallGate, false), d, vol)
    case Install => HandleInstall(s, d, vol, env)
    case RebootPauseRequested => Goto(s, ControlMap(RebootGate, false), d, vol)
    case Reboot => HandleReboot(s, d, vol, env)
    case VerifyReboot => HandleVerifyReboot(s, d, vol, env)
    case AfterReboot => Goto(s, FetchControlMap(CommitGate, false), d, vol)
    case Commit(_) => HandleCommit(cfg, s, d, vol, env)
    case PreCommitRetry(_) => HandlePreCommitRetry(cfg, s, d, vol, env)
    case AfterFirstCommit => HandleAfterFirstCommit(s, d, vol, env)
    case AfterCommit => Goto(s, Cleanup(true), d, vol)
  }

  /** Handle. */
  function Handle(cfg: Config, s: State, d: Disk, vol: Volatile, env: Env): Outcome {
    if s.kind.IsPolling() then HandlePolling(s, d, vol, env)
    else if s.kind.IsGate() then HandleGate(cfg, s, d, vol, env)
    else if s.kind.IsEnding() then HandleEnding(cfg, s, d, vol, env)
    else HandleForward(cfg, s, d, vol, env)
  }

  // ------------------------------------------------------- transitionState

  /** Transition.Enter and Transition.Leave: whether the scripts let the agent go on. */
  predicate ScriptsPass(t: Transition, action: Action, env: Env) {
    !t.HasScripts(action) || t.IgnoresErrors()
    || (if t.ToError? then env.errorScripts else if action.EnterAction? then env.enter else env.leave)
  }

  /** From an ordinary state into an error state: Error scripts run instead of Leave, and cannot fail. */
  predicate TurnsToError(from: Kind, to: Kind) {
    to.Transition().IsToError() && !from.Transition().IsToError()
  }

  predicate LeavePasses(from: Kind, to: Kind, env: Env) {
    !ShouldTransit(from, to) || TurnsToError(from, to) || ScriptsPass(from.Transition(), LeaveAction, env)
  }

  predicate EnterPasses(from: Kind, to: Kind, env: Env) {
    !ShouldTransit(from, to) || ScriptsPass(to.Transition(), EnterAction, env)
  }

  /** Whether storing the new state counts towards the loop limit. */
  predicate Counted(from: Kind, to: Kind) {
    from.IsUpdateState() && to.IsUpdateState() && !from.PermitLooping() && !to.PermitLooping()
  }

  function NoteStored(d: Disk, to: Kind, vol: Volatile, r: StoreResult): Disk {
    var d1 := if to.AfterFirstCommit? then AddFacts(d, {PastFirstCommit}) else d;
    var d2 := if to.IsReporting() then d1.(history := d1.history.(failedReports := vol.failedReports)) else d1;
    if r.Stored? && to.IsEnding() then LimitSettled(d2) else d2
  }

  function StoreNewState(m: Machine, env: Env): (Disk, StoreResult) {
    var (d, r) := Put(m.disk, m.to.kind.Id(), m.to.info, Counted(m.cur.kind, m.to.kind), env.storeFault);
    (if env.storeFault.NoFault? then NoteStored(d, m.to.kind, m.vol, r) else d, r)
  }

  /** The ArtifactCommit_Leave scripts are those run on the way out of AfterCommit. */
  function Left(m: Machine): Machine {
    if m.cur.kind.AfterCommit? && ShouldTransit(m.cur.kind, m.to.kind) && !TurnsToError(m.cur.kind, m.to.kind)
    then m.(disk := AddFacts(m.disk, {CommitLeaveOk})) else m
  }

  function EnterAndHandle(cfg: Config, m: Machine, d: Disk, env: Env): Outcome {
    if EnterPasses(m.cur.kind, m.to.kind, env) then Handle(cfg, m.to, d, m.vol, env)
    else Failed(m.to, d, m.vol, false, env)
  }

  /** transitionState once the leave scripts have passed. */
  function EnterState(cfg: Config, m: Machine, env: Env): Outcome {
    if m.to.kind.IsUpdateState() then
      var (d, r) := StoreNewState(m, env);
      if !r.Stored? then
        var (d1, next) := HandleError(m.to, d, true, env);
        var (d2, next2) := AfterStoreError(d1, next, m.to.info, r, env.flagOk);
        Outcome(m.to, next2, d2, m.vol, [d, d1])
      else
        var o := EnterAndHandle(cfg, m, d, env);
        o.(cuts := [d] + o.cuts)
    else EnterAndHandle(cfg, m, m.disk, env)
  }

  function TransitionState(cfg: Config, m: Machine, env: Env): Outcome {
    if !LeavePasses(m.cur.kind, m.to.kind, env) then Failed(m.cur, m.disk, m.vol, false, env)
    else EnterState(cfg, Left(m), env)
  }

  // --------------------------------------------------------------- bootstrap

  /**
   HandleBootstrapArtifact runs at every start, and loads the record only to see whether
   there is one. That load counts, and a count at its maximum starts over unnoticed.
   */
  function CountedAtStart(d: Disk, env: Env): Disk {
    var (db, loaded) := LoadStateData(d.db, env.bootFault);
    if loaded.Loaded? then LimitSettled(d.(db := db)) else d.(db := db)
  }

  /** Any error of that load counts as "no record", the exceeded count included. */
  predicate Initialized(d: Disk, env: Env) {
    LoadStateData(d.db, env.bootFault).1.Loaded? || (env.providesRead && LoadProvides(d.db.artifact) != map[])
  }

  /** The bootstrap Artifact, or the name "unknown" if there is none or it cannot be committed. */
  function BootstrapCommit(env: Env): Option<ArtifactCommit> {
    if env.image.Some? && env.image.value.name != "" && env.imageFault.NoFault? then
      Some(env.image.value.(clears := None))
    else if env.unknownFault.NoFault? then Some(NO_BOOTSTRAP)
    else None
  }

  /** HandleBootstrapArtifact. */
  function Bootstrap(d: Disk, env: Env): Disk {
    var d1 := CountedAtStart(d, env);
    var c := BootstrapCommit(env);
    if Initialized(d, env) || c.None? then d1
    else d1.(db := CommitArtifactData(d1.db, c.value, (_, _) => false),
             history := d1.history.(bootName := Some(c.value.name)))
  }

  // -------------------------------------------------------------------- runs

  /** The daemon exits on a fatal error state; only a restart moves it again. */
  predicate Exited(m: Machine) { m.to.kind == Error(true) }

  /** The first step after a start begins with the bootstrap, the others do not. */
  function Started(m: Machine, env: Env): Machine {
    if m.to.kind.Init? then m.(disk := Bootstrap(m.disk, env)) else m
  }

  function Run(cfg: Config, m: Machine, env: Env): Machine {
    if Exited(m) then m
    else
      var o := TransitionState(cfg, Started(m, env), env);
      Machine(o.cur, o.next, o.disk, o.vol)
  }

  /** The disks that a power loss can leave before the first state is entered. */
  function StartCuts(m: Machine, env: Env): seq<Disk> {
    if m.to.kind.Init? then [m.disk, CountedAtStart(m.disk, env), Bootstrap(m.disk, env)] else [m.disk]
  }

  /** The disks that a power loss during this step can leave. */
  function Cuts(cfg: Config, m: Machine, env: Env): seq<Disk> {
    if Exited(m) then [m.disk] else StartCuts(m, env) + TransitionState(cfg, Started(m, env), env).cuts
  }

  function Boot(d: Disk): Machine { Machine(Polling(Init), Polling(Init), d, Volatile(0, 0, 0, {}, 0)) }

  /** Go on, or lose power at some point inside the step. */
  datatype Choice = Go(env: Env) | PowerLoss(env: Env, cut: nat)

  function Next(cfg: Config, m: Machine, c: Choice): Machine {
    match c
    case Go(env) => Run(cfg, m, env)
    case PowerLoss(env, cut) => Boot(At(Cuts(cfg, m, env), cut, m.disk))
  }

  function RunAll(cfg: Config, m: Machine, choices: seq<Choice>): Machine
    decreases |choices|
  {
    if choices == [] then m else RunAll(cfg, Next(cfg, m, choices[0]), choices[1..])
  }
}
