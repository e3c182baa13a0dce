/**
 The daemon as an object (app/mender.go, app/state.go, app/daemon.go): transitionState
 and the handlers change the controller's state, the counters and the database step by
 step, and ask the payloads in loops. Each is proved to do what module Daemon says, and
 to go through no other databases than those a power loss is assumed to find; the main
 loop, with power losses, is proved to reach the machines that the results about runs
 speak of.
 */
module Mender {
  import opened Wrappers
  import opened StateData
  import opened Datastore
  import opened UpdateStates
  import opened Daemon

  // ------------------------------------------------------ loops over payloads

  /** Stops at the first payload that reports an error. */
  method UntilError(env: Env, count: nat) returns (ok: bool)
    ensures ok <==> AllSucceed(env, count)
  {
    var n := 0;
    while n < count
      invariant 0 <= n <= count && AllSucceed(env, n)
    {
      if !Succeeds(env, n) { return false; }
      n := n + 1;
    }
    ok := true;
  }

  /** Goes on after an error. */
  method EachPayload(env: Env, from: nat, count: nat) returns (ok: bool, done: set<Fact>)
    ensures ok <==> forall n: nat :: from <= n < count ==> Succeeds(env, n)
    ensures done == CommitFacts(env, from, count)
  {
    ok, done := true, {};
    var n := from;
    while n < count
      invariant from <= n && (n <= count || n == from)
      invariant ok <==> forall k: nat :: from <= k < n ==> Succeeds(env, k)
      invariant done == CommitFacts(env, from, n)
    {
      if Succeeds(env, n) { done := done + {Committed(n)}; } else { ok := false; }
      n := n + 1;
    }
  }

  /** handleSupportsRollback. */
  method SupportOfAll(support: RollbackSupport, answers: seq<Option<bool>>,
      count: nat) returns (collected: RollbackSupport, ok: bool)
    ensures (collected, ok) == CollectSupport(support, answers, 0, count)
  {
    collected := support;
    var n := 0;
    while n < count
      invariant 0 <= n <= count
          && CollectSupport(support, answers, 0, count) == CollectSupport(collected, answers, n, count)
    {
      if At(answers, n, None).None? { return collected, false; }
      var next := SetSupport(collected, if answers[n].value then Supported else NotSupported);
      if next.None? { return collected, false; }
      collected := next.value;
      n := n + 1;
    }
    ok := true;
  }

  /** handleRebootType. */
  method RebootsOfAll(requested: seq<RebootType>, answers: seq<Option<RebootType>>, count: nat)
    returns (collected: seq<RebootType>, ok: bool)
    ensures (collected, ok) == CollectReboots(requested, answers, 0, count)
  {
    collected := requested;
    var n := 0;
    while n < count
      invariant 0 <= n <= count
          && CollectReboots(requested, answers, 0, count) == CollectReboots(collected, answers, n, count)
    {
      if At(answers, n, None).None? { return collected, false; }
      var next := SetReboot(collected, n, answers[n].value);
      if next.None? { return collected, false; }
      collected := next.value;
      n := n + 1;
    }
    ok := true;
  }

  /** queryUpdateModuleReboot for every payload that has no answer yet. */
  method QueryAll(requested: seq<RebootType>, answers: seq<Option<RebootType>>, count: nat) returns (r: seq<RebootType>)
    ensures r == QueryReboots(requested, answers, 0, count)
  {
    r := requested;
    var n := 0;
    while n < count
      invariant 0 <= n <= count && QueryReboots(requested, answers, 0, count) == QueryReboots(r, answers, n, count)
    {
      if !(n < |r| && !r[n].RebootNone?) && At(answers, n, None).Some? {
        var next := SetReboot(r, n, answers[n].value);
        if next.Some? { r := next.value; }
      }
      n := n + 1;
    }
  }

  method AnyReboot(requested: seq<RebootType>, count: nat) returns (wanted: bool)
    ensures wanted <==> WantsReboot(requested, count)
  {
    var n := 0;
    while n < count
      invariant 0 <= n <= count && !WantsReboot(requested, n)
    {
      if n < |requested| && !requested[n].RebootNone? { return true; }
      n := n + 1;
    }
    wanted := false;
  }

  /** The loop of the reboot state: custom reboots are run, a system reboot is remembered. */
  method ScanAll(requested: seq<RebootType>, env: Env, count: nat) returns (scan: RebootScan)
    ensures scan == ScanReboots(requested, env, 0, count, false)
  {
    var n, system := 0, false;
    while n < count
      invariant 0 <= n <= count
          && ScanReboots(requested, env, 0, count, false) == ScanReboots(requested, env, n, count, system)
    {
      var reboot := GetReboot(requested, n);
      if reboot.None? { return ScanError; }
      match reboot.value {
        case RebootCustom => if !Succeeds(env, n) { return ScanFailed; }
        case RebootAutomatic => system := true;
        case RebootNone =>
      }
      n := n + 1;
    }
    scan := ScanDone(system);
  }

  // -------------------------------------------------------------- the daemon

  lemma LoadKeepsArtifact(db: Db, fault: Fault)
    ensures LoadStateData(db, fault).0.artifact == db.artifact
  {
  }

  class Mender {
    const cfg: Config
    var cur: State
    var disk: Disk
    var vol: Volatile
    var cuts: seq<Disk>    // what a power loss during this step can leave, besides its start

    constructor (cfg: Config, d: Disk)
      ensures this.cfg == cfg && Machine(cur, cur, disk, vol) == Boot(d)
    {
      this.cfg, cur, disk, vol, cuts := cfg, Polling(Init), d, Volatile(0, 0, 0, {}, 0), [];
    }

    /** What has been done since the cuts were before, if the handler goes on to next. */
    ghost function Did(next: State, before: seq<Disk>): Outcome
      reads this
      requires before <= cuts
    {
      Outcome(cur, next, disk, vol, cuts[|before|..])
    }

    method StoreStateData(name: StateId, info: UpdateInfo, increment: bool, fault: Fault) returns (r: StoreResult)
      modifies this`disk
      ensures (disk, r) == Put(old(disk), name, info, increment, fault)
    {
      var (d, result) := Put(disk, name, info, increment, fault);
      disk, r := d, result;
    }

    /** A handler, or transitionState, reports an error of the state s. */
    method Fail(s: State, fatal: bool, env: Env) returns (next: State)
      modifies this`disk
      ensures (disk, next) == HandleError(s, old(disk), fatal, env)
    {
      var (d, state) := HandleError(s, disk, fatal, env);
      disk, next := d, state;
    }

    method HandleStateDataError(next: State, info: UpdateInfo, r: StoreResult, env: Env) returns (state: State)
      modifies this`disk
      ensures (disk, state) == AfterStoreError(old(disk), next, info, r, env.flagOk)
    {
      if r.CountExceeded? {
        disk := SetBroken(disk, info, env.flagOk);
        return State(StatusReport(false, 0, 0), info);
      }
      state := next;
    }

    method StoreUpdate(env: Env) returns (next: State)
      requires cur.kind.Store?
      modifies this
      ensures old(cuts) <= cuts && Did(next, old(cuts)) == HandleStore(old(cur), old(disk), old(vol), env)
    {
      hide StoreStateDataAndTransaction, WithHeaders, DownloadFacts, SetBroken, CollectSupport;
      if !env.logger || env.report.Fatal? { return State(StatusReport(false, 0, 0), cur.info); }
      if env.headers.None? { return State(Cleanup(false), cur.info); }
      vol := vol.(installers := |env.headers.value|);
      cur := State(Store, cur.info.(payloadTypes := env.headers.value));
      if !env.headersMatch || !env.dependsMet { return State(StatusReport(false, 0, 0), cur.info); }
      cur := State(Store, WithHeaders(cur.info, env));
      var r := StoreStateData(IdUpdateStore, cur.info, true, env.handlerFault);
      cuts := cuts + [disk];
      if !r.Stored? {
        next := HandleStateDataError(State(Cleanup(false), cur.info), cur.info, r, env);
        return;
      }
      if !env.stored { return State(Cleanup(false), cur.info); }
      disk := AddFacts(disk, DownloadFacts(env));
      cuts := cuts + [disk];
      var support, ok := SupportOfAll(cur.info.supportsRollback, env.rollbackAnswers, vol.installers);
      cur := State(Store, cur.info.(supportsRollback := support));
      if !ok { return State(UpdateError, cur.info); }
      r := StoreStateData(IdUpdateStore, cur.info, true, env.secondFault);
      cuts := cuts + [disk];
      if !r.Stored? {
        next := HandleStateDataError(State(UpdateError, cur.info), cur.info, r, env);
        return;
      }
      vol := vol.(fetchAttempts := 0);
      next := State(if env.laterReport.Fatal? then UpdateError else AfterStore, cur.info);
    }

    method InstallUpdate(env: Env) returns (next: State)
      requires cur.kind.Install?
      modifies this
      ensures old(cuts) <= cuts && Did(next, old(cuts)) == HandleInstall(old(cur), old(disk), old(vol), env)
    {
      hide HandleError, StoreStateDataAndTransaction;
      if !env.logger { return State(UpdateError, cur.info); }
      if env.report.Fatal? { next := Fail(cur, true, env); return; }
      var ok := UntilError(env, vol.installers);
      disk := AddFacts(disk, InstallFacts(env, vol.installers));
      if !ok { next := Fail(cur, false, env); return; }
      var requested;
      requested, ok := RebootsOfAll(cur.info.rebootRequested, env.rebootAnswers, vol.installers);
      cur := State(Install, cur.info.(rebootRequested := requested));
      if !ok { next := Fail(cur, false, env); return; }
      var r := StoreStateData(IdUpdateInstall, cur.info, true, env.handlerFault);
      cuts := cuts + [disk];
      if !r.Stored? {
        next := Fail(cur, false, env);
        cuts := cuts + [disk];
        next := HandleStateDataError(next, cur.info, r, env);
        return;
      }
      var wanted := AnyReboot(cur.info.rebootRequested, vol.installers);
      next := State(if wanted then FetchControlMap(RebootGate, true) else FetchControlMap(CommitGate, false), cur.info);
    }

    method RebootUpdate(env: Env) returns (next: State)
      requires cur.kind.Reboot?
      modifies this
      ensures old(cuts) <= cuts && Did(next, old(cuts)) == HandleReboot(old(cur), old(disk), old(vol), env)
    {
      if env.report.Fatal? { return State(Rollback, cur.info); }
      var scan := ScanAll(cur.info.rebootRequested, env, vol.installers);
      match scan {
        case ScanFailed => next := State(Rollback, cur.info);
        case ScanError => next := Fail(cur, false, env);
        case ScanDone(system) =>
          if system { next := Fail(cur, false, env); } else { next := State(VerifyReboot, cur.info); }
      }
    }

    /** The state and the artifact's name and provides are stored in one transaction. */
    method StoreNewArtifact(env: Env) returns (next: State)
      modifies this
      ensures old(cuts) <= cuts && Did(next, old(cuts)) == StoreCommit(cfg, old(cur), old(disk), old(vol), env)
    {
      hide StoreStateDataAndTransaction;
      cuts := cuts + [disk];
      var info := cur.info;
      var c := ArtifactCommit(info.artifactName, info.artifactGroup, info.newProvides, info.clears);
      var (db, r) := StoreStateDataAndTransaction(disk.db, IdUpdateCommit, info, true, Some(c), cfg.matches,
          env.handlerFault);
      disk := NoteLimit(disk.(db := db), r);
      if env.handlerFault.NoFault? { disk := AddFacts(disk, {NameStored}); }
      cuts := cuts + [disk];
      if !r.Stored? {
        next := HandleStateDataError(State(UpdateError, info), info, r, env);
        return;
      }
      next := State(AfterFirstCommit, info);
    }

    method CommitUpdate(env: Env) returns (next: State)
      requires cur.kind.Commit?
      modifies this
      ensures old(cuts) <= cuts && Did(next, old(cuts)) == HandleCommit(cfg, old(cur), old(disk), old(vol), env)
    {
      hide HandleError, StoreCommit;
      if !env.scriptsCompatible { next := Fail(cur, false, env); return; }
      var tries := cur.kind.tries + 1;
      cur := State(Commit(tries), cur.info.(reportAttempts := AttemptsAfter(tries, env.report)));
      if env.report.Transient? { return State(PreCommitRetry(tries), cur.info); }
      if env.report.Fatal? { next := Fail(cur, true, env); return; }
      if vol.installers > 0 && !Succeeds(env, 0) { next := Fail(cur, false, env); return; }
      disk := AddFacts(disk, {if vol.installers > 0 then Committed(0) else EmptyArtifact});
      cur := State(cur.kind, cur.info.(schemaUpdate := false));
      next := StoreNewArtifact(env);
    }

    method CommitOthers(env: Env) returns (next: State)
      modifies this
      ensures old(cuts) <= cuts && Did(next, old(cuts)) == HandleAfterFirstCommit(old(cur), old(disk), old(vol), env)
    {
      hide HandleError;
      var ok, done := EachPayload(env, 1, vol.installers);
      disk := AddFacts(disk, done);
      if ok { return State(AfterCommit, cur.info); }
      next := Fail(cur, false, env);
    }

    method RollBack(env: Env) returns (next: State)
      requires cur.kind.Rollback?
      modifies this
      ensures old(cuts) <= cuts && Did(next, old(cuts)) == HandleRollback(old(cur), old(disk), old(vol), env)
    {
      hide HandleError;
      var ok := UntilError(env, vol.installers);
      if !ok { next := Fail(cur, true, env); return; }
      var requested := QueryAll(cur.info.rebootRequested, env.rebootAnswers, vol.installers);
      cur := State(Rollback, cur.info.(rebootRequested := requested));
      var wanted := AnyReboot(cur.info.rebootRequested, vol.installers);
      next := State(if wanted then RollbackReboot else UpdateError, cur.info);
    }

    method CleanUp(env: Env) returns (next: State)
      requires cur.kind.Cleanup?
      modifies this
      ensures old(cuts) <= cuts && Did(next, old(cuts)) == HandleCleanup(old(cur), old(disk), old(vol), env)
    {
      var ok, _ := EachPayload(env, 0, vol.installers);
      disk := if ok then AddFacts(disk, {CleanupOk}) else DropFacts(disk, {CleanupOk});
      vol := vol.(pauseReported := {});
      next := State(StatusReport(cur.kind.success && ok, 0, 0), cur.info);
    }

    method Report(env: Env) returns (next: State)
      requires cur.kind.StatusReport?
      modifies this
      ensures old(cuts) <= cuts && Did(next, old(cuts)) == HandleStatusReport(old(cur), old(disk), old(vol), env)
    {
      var (success, tries, logTries) := (cur.kind.success, cur.kind.tries + 1, cur.kind.logTries);
      cur := State(StatusReport(success, tries, logTries),
        cur.info.(reportAttempts := AttemptsAfter(tries, env.report)));
      vol := vol.(failedReports := FailuresAfter(vol.failedReports, env.report));
      if env.report.Fatal? { return Polling(Idle); }
      if env.report.Transient? { return State(StatusReportRetry(success, tries, tries, logTries), cur.info); }
      if !success && !env.logs.Fatal? {
        logTries := logTries + 1;
        cur := State(StatusReport(success, tries, logTries), cur.info);
        if env.logs.Transient? { return State(StatusReportRetry(success, logTries, tries, logTries), cur.info); }
      }
      next := Polling(Idle);
    }

    // --------------------------------------- waiting, and deciding where to go

    /** initState.Handle. */
    method StartUp(env: Env) returns (next: State)
      modifies this
      ensures old(cuts) <= cuts && Did(next, old(cuts)) == HandleInit(old(cur), old(disk), old(vol), env)
    {
      hide LoadStateData, Resume;
      var (db, loaded) := LoadStateData(disk.db, env.loadFault);
      match loaded {
        case NotFound => next := Polling(Idle);
        case LoadFailed => next := State(UpdateError, UNKNOWN_UPDATE);
        case LoadExceeded(r) =>
          disk := LimitFires(disk.(db := db));
          cuts := cuts + [disk];
          disk := SetBroken(disk, r.info, env.flagOk);
          next := State(StatusReport(false, 0, 0), r.info);
        case Loaded(r) =>
          disk := LimitSettled(disk.(db := db));
          if !env.restored {
            cuts := cuts + [disk];
            return State(StatusReport(false, 0, 0), r.info);
          }
          disk := NoteResume(disk, r);
          cuts := cuts + [disk];
          next := ResumeFrom(r, env);
          vol := vol.(installers := |r.info.payloadTypes|, failedReports := disk.history.failedReports);
      }
    }

    /** getNextState. */
    method ResumeFrom(r: Record, env: Env) returns (next: State)
      modifies this`disk
      ensures (disk, next) == Resume(r, old(disk), env) && disk.history == old(disk.history)
    {
      match r.name {
        case IdUpdateFetch =>
          disk := RemoveRecord(disk, env.removeOk);
          next := Polling(if env.removeOk then Idle else Error(true));
        case IdUpdateStore | IdUpdateAfterStore | IdUpdateCleanup => next := State(Cleanup(false), r.info);
        case IdReboot => next := State(VerifyReboot, r.info);
        case IdRollbackReboot | IdVerifyRollbackReboot | IdAfterRollbackReboot =>
          next := State(VerifyRollbackReboot, r.info);
        case IdUpdateAfterFirstCommit => next := State(AfterFirstCommit, r.info);
        case IdUpdateAfterCommit => next := State(AfterCommit, r.info);
        case IdUpdateError => next := State(UpdateError, r.info);
        case IdUpdateStatusReport | IdStatusReportRetry =>
          next := State(StatusReport(false, r.info.reportAttempts, 0), r.info);
        case IdReportStatusError => next := Polling(Idle);
        case _ =>
          if r.info.supportsRollback.Supported? {
            next := State(Rollback, r.info);
          } else {
            disk := SetBroken(disk, r.info, env.flagOk);
            next := State(UpdateError, r.info);
          }
      }
    }

    method CheckForUpdate(env: Env) returns (next: State)
      modifies this
      ensures cuts == old(cuts) && Did(next, cuts) == HandleUpdateCheck(old(cur), old(disk), old(vol), env)
    {
      match env.offer {
        case NoOffer => next := Polling(CheckWait);
        case CheckFailed => next := Polling(Error(false));
        case Offered(u) =>
          disk, vol := NewDeployment(disk, u), vol.(failedReports := 0);
          next := State(Fetch, Fresh(u));
        case BadOffer(u) =>
          disk, vol := NewDeployment(disk, u), vol.(failedReports := 0);
          next := State(StatusReport(false, 0, 0), Fresh(u));
      }
    }

    /** The states between two deployments. */
    method Poll(env: Env) returns (next: State)
      requires cur.kind.IsPolling()
      modifies this
      ensures old(cuts) <= cuts && Did(next, old(cuts)) == HandlePolling(old(cur), old(disk), old(vol), env)
    {
      hide HandleInit, HandleUpdateCheck;
      match cur.kind
      case Init => next := StartUp(env);
      case Idle =>
        disk := RemoveRecord(disk, env.removeOk);
        next := Polling(CheckWait);
      case CheckWait => next := Polling(UpdateCheck);
      case UpdateCheck => next := CheckForUpdate(env);
      case Error(fatal) => next := if fatal then cur else Polling(Idle);
    }

    method FetchMap(env: Env) returns (next: State)
      requires cur.kind.FetchControlMap?
      modifies this
      ensures cuts == old(cuts) && Did(next, cuts) == HandleFetchControlMap(old(cur), old(disk), old(vol), env)
    {
      hide HandleError;
      var (gate, pauseState) := (cur.kind.gate, cur.kind.pauseState);
      if env.hasMap {
        if env.refresh.Aborted? { next := Fail(State(Wrapped(gate), cur.info), false, env); return; }
        if env.refresh.RefreshFailed? { return State(FetchRetryControlMap(gate, pauseState), cur.info); }
      }
      vol := vol.(mapAttempts := 0);
      next := State(ControlMap(gate, pauseState), cur.info);
    }

    method RetryFetchMap(env: Env) returns (next: State)
      requires cur.kind.FetchRetryControlMap?
      modifies this
      ensures cuts == old(cuts)
      ensures Did(next, cuts) == HandleFetchRetryControlMap(cfg, old(cur), old(disk), old(vol), env)
    {
      hide HandleError, GivesUp;
      var (gate, pauseState) := (cur.kind.gate, cur.kind.pauseState);
      if GivesUp(cfg, vol.mapAttempts) { next := Fail(State(Wrapped(gate), cur.info), false, env); return; }
      vol := vol.(mapAttempts := vol.mapAttempts + 1);
      next := State(FetchControlMap(gate, pauseState), cur.info);
    }

    /** A pause is reported once for each gate. */
    method AskMaps(env: Env) returns (next: State)
      requires cur.kind.ControlMap?
      modifies this
      ensures cuts == old(cuts) && Did(next, cuts) == HandleControlMap(old(cur), old(disk), old(vol), env)
    {
      hide HandleError;
      var (gate, pauseState) := (cur.kind.gate, cur.kind.pauseState);
      match env.action
      case Continue => next := State(Wrapped(gate), cur.info);
      case UnknownAction => next := State(Wrapped(gate), cur.info);
      case Fail => next := Fail(State(Wrapped(gate), cur.info), false, env);
      case Pause =>
        if pauseState { return State(RebootPauseRequested, cur.info); }
        var reports := gate !in vol.pauseReported;
        vol := vol.(pauseReported := vol.pauseReported + {gate});
        if reports && env.report.Fatal? { next := Fail(State(Wrapped(gate), cur.info), true, env); return; }
        next := State(ControlMapPause(gate), cur.info);
    }

    method Gated(env: Env) returns (next: State)
      requires cur.kind.IsGate()
      modifies this
      ensures cuts == old(cuts) && Did(next, cuts) == HandleGate(cfg, old(cur), old(disk), old(vol), env)
    {
      hide HandleFetchControlMap, HandleFetchRetryControlMap, HandleControlMap;
      match cur.kind
      case FetchControlMap(_, _) => next := FetchMap(env);
      case FetchRetryControlMap(_, _) => next := RetryFetchMap(env);
      case ControlMap(_, _) => next := AskMaps(env);
      case ControlMapPause(gate) =>
        var again := if env.mapsLeft && !env.mapChanged then FetchControlMap(gate, false) else ControlMap(gate, false);
        next := State(again, cur.info);
    }

    /** Verifies the reboot of every payload, on the way forward or back. */
    method VerifyReboots(passed: Kind, facts: set<Fact>, env: Env) returns (next: State)
      modifies this
      ensures cuts == old(cuts) && cur == old(cur) && vol == old(vol)
      ensures var d := AddFacts(old(disk), facts);
              if AllSucceed(env, vol.installers) then disk == d && next == State(passed, cur.info)
              else (disk, next) == HandleError(cur, d, false, env)
    {
      hide HandleError;
      var ok := UntilError(env, vol.installers);
      disk := AddFacts(disk, facts);
      if ok { return State(passed, cur.info); }
      next := Fail(cur, false, env);
    }

    method FetchUpdate(env: Env) returns (next: State)
      requires cur.kind.Fetch?
      modifies this
      ensures cuts == old(cuts) && Did(next, cuts) == HandleFetch(old(cur), old(disk), old(vol), env)
    {
      if !env.logger || env.report.Fatal? { return State(StatusReport(false, 0, 0), cur.info); }
      next := State(if env.fetched then Store else FetchStoreRetry, cur.info);
    }

    method RetryFetch() returns (next: State)
      requires cur.kind.FetchStoreRetry?
      modifies this
      ensures cuts == old(cuts) && Did(next, cuts) == HandleFetchStoreRetry(cfg, old(cur), old(disk), old(vol))
    {
      hide GivesUp;
      if GivesUp(cfg, vol.fetchAttempts) { return State(UpdateError, cur.info); }
      vol := vol.(fetchAttempts := vol.fetchAttempts + 1);
      next := State(Fetch, cur.info);
    }

    method RetryPreCommit(env: Env) returns (next: State)
      requires cur.kind.PreCommitRetry?
      modifies this
      ensures cuts == old(cuts) && Did(next, cuts) == HandlePreCommitRetry(cfg, old(cur), old(disk), old(vol), env)
    {
      hide HandleError, MaxSends;
      var s := State(Commit(cur.kind.tries), cur.info);
      if cur.kind.tries < MaxSends(cfg) { return s; }
      next := Fail(s, false, env);
    }

    method RetryReport() returns (next: State)
      requires cur.kind.StatusReportRetry?
      ensures Did(next, cuts) == HandleStatusReportRetry(cfg, cur, disk, vol)
    {
      hide MaxSends;
      next := if cur.kind.spent < MaxSends(cfg)
              then State(StatusReport(cur.kind.success, cur.kind.sends, cur.kind.logSends), cur.info)
              else Polling(Idle);
    }

    /** The states that end a deployment. */
    method EndDeployment(env: Env) returns (next: State)
      requires cur.kind.IsEnding()
      modifies this
      ensures old(cuts) <= cuts && Did(next, old(cuts)) == HandleEnding(cfg, old(cur), old(disk), old(vol), env)
    {
      hide HandleRollback, HandleCleanup, HandleStatusReport, HandleStatusReportRetry, HandleError, AllSucceed;
      match cur.kind
      case Rollback => next := RollBack(env);
      case RollbackReboot => next := State(VerifyRollbackReboot, cur.info);
      case VerifyRollbackReboot =>
        assert AddFacts(disk, {}) == disk;
        next := VerifyReboots(AfterRollbackReboot, {}, env);
      case AfterRollbackReboot => next := State(UpdateError, cur.info);
      case UpdateError => next := State(Cleanup(false), cur.info);
      case Cleanup(_) => next := CleanUp(env);
      case StatusReport(_, _, _) => next := Report(env);
      case StatusReportRetry(_, _, _, _) => next := RetryReport();
    }

    /** The states that take a deployment forward. */
    method GoForward(env: Env) returns (next: State)
      requires !cur.kind.IsPolling() && !cur.kind.IsGate() && !cur.kind.IsEnding()
      modifies this
      ensures old(cuts) <= cuts && Did(next, old(cuts)) == HandleForward(cfg, old(cur), old(disk), old(vol), env)
    {
      hide HandleFetch, HandleFetchStoreRetry, HandleStore, HandleInstall, HandleReboot, HandleCommit,
           HandlePreCommitRetry, HandleAfterFirstCommit, HandleError, AllSucceed;
      match cur.kind
      case Fetch => next := FetchUpdate(env);
      case FetchStoreRetry => next := RetryFetch();
      case Store => next := StoreUpdate(env);
      case AfterStore => next := State(FetchControlMap(InstallGate, false), cur.info);
      case Install => next := InstallUpdate(env);
      case RebootPauseRequested => next := State(ControlMap(RebootGate, false), cur.info);
      case Reboot => next := RebootUpdate(env);
      case VerifyReboot => next := VerifyReboots(AfterReboot, VerifyFacts(env, vol.installers), env);
      case AfterReboot => next := State(FetchControlMap(CommitGate, false), cur.info);
      case Commit(_) => next := CommitUpdate(env);
      case PreCommitRetry(_) => next := RetryPreCommit(env);
      case AfterFirstCommit => next := CommitOthers(env);
      case AfterCommit => next := State(Cleanup(true), cur.info);
    }

    method RunHandler(env: Env) returns (next: State)
      modifies this
      ensures old(cuts) <= cuts && Did(next, old(cuts)) == Handle(cfg, old(cur), old(disk), old(vol), env)
    {
      hide HandlePolling, HandleGate, HandleEnding, HandleForward;
      if cur.kind.IsPolling() { next := Poll(env); }
      else if cur.kind.IsGate() { next := Gated(env); }
      else if cur.kind.IsEnding() { next := EndDeployment(env); }
      else { next := GoForward(env); }
    }

    method EnterAndRun(from: State, to: State, ghost start: Disk, env: Env) returns (next: State)
      requires cur == to
      modifies this
      ensures old(cuts) <= cuts
      ensures Did(next, old(cuts)) == EnterAndHandle(cfg, Machine(from, to, start, old(vol)), old(disk), env)
    {
      hide Handle, HandleError;
      if ShouldTransit(from.kind, to.kind) && !ScriptsPass(to.kind.Transition(), EnterAction, env) {
        next := Fail(to, false, env);
        return;
      }
      next := RunHandler(env);
    }

    /** Once the old state has been left: store the new one, run its Enter scripts and its handler. */
    method Enter(from: State, to: State, env: Env) returns (next: State)
      requires cuts == []
      modifies this
      ensures Did(next, []) == EnterState(cfg, Machine(from, to, old(disk), old(vol)), env)
    {
      hide EnterAndHandle, HandleError, Put, AfterStoreError, NoteStored, Counted;
      ghost var start := disk;
      cur := to;
      if to.kind.IsUpdateState() {
        var r := StoreStateData(to.kind.Id(), to.info, Counted(from.kind, to.kind), env.storeFault);
        if env.storeFault.NoFault? { disk := NoteStored(disk, to.kind, vol, r); }
        cuts := cuts + [disk];
        if !r.Stored? {
          next := Fail(to, true, env);
          cuts := cuts + [disk];
          next := HandleStateDataError(next, to.info, r, env);
          return;
        }
      }
      next := EnterAndRun(from, to, start, env);
    }

    /** transitionState. A step into an error state runs the Error scripts, whose result is ignored. */
    method TransitionState(to: State, env: Env) returns (next: State)
      modifies this
      ensures Did(next, []) == Daemon.TransitionState(cfg, Machine(old(cur), to, old(disk), old(vol)), env)
    {
      hide HandleError, EnterState;
      cuts := [];
      var from := cur;
      if ShouldTransit(from.kind, to.kind) && !TurnsToError(from.kind, to.kind) {
        if !ScriptsPass(from.kind.Transition(), LeaveAction, env) { next := Fail(from, false, env); return; }
        if from.kind.AfterCommit? { disk := AddFacts(disk, {CommitLeaveOk}); }
      }
      next := Enter(from, to, env);
    }

    // ------------------------------------------------------------------ runs

    /** The agent goes down, and a new one finds this disk. */
    method Restart(d: Disk) returns (next: State)
      modifies this
      ensures Machine(cur, next, disk, vol) == Boot(d)
    {
      cur, disk, vol, cuts := Polling(Init), d, Volatile(0, 0, 0, {}, 0), [];
      next := cur;
    }

    /** Any error of the load counts as "no record". Two commits may fail one after the other. */
    method HandleBootstrapArtifact(env: Env) returns (counted: Disk)
      modifies this`disk
      ensures disk == Bootstrap(old(disk), env) && counted == CountedAtStart(old(disk), env)
    {
      hide LoadStateData, LoadProvides, CommitArtifactData;
      var initialized := false;
      var (db, loaded) := LoadStateData(disk.db, env.bootFault);
      ghost var before := disk;
      disk := disk.(db := db);
      if loaded.Loaded? {
        disk := LimitSettled(disk);
        initialized := true;
      } else if env.providesRead {
        LoadKeepsArtifact(before.db, env.bootFault);
        initialized := LoadProvides(disk.db.artifact) != map[];
      }
      counted := disk;
      if initialized { return; }
      if env.image.Some? && env.image.value.name != "" && env.imageFault.NoFault? {
        CommitAtStart(env.image.value.(clears := None));
      } else if env.unknownFault.NoFault? {
        CommitAtStart(NO_BOOTSTRAP);
      }
    }

    method CommitAtStart(c: ArtifactCommit)
      modifies this`disk
      ensures disk == old(disk).(db := CommitArtifactData(old(disk).db, c, (_, _) => false),
                                 history := old(disk).history.(bootName := Some(c.name)))
    {
      var db := CommitArtifactData(disk.db, c, (_, _) => false);
      disk := disk.(db := db, history := disk.history.(bootName := Some(c.name)));
    }

    /** One choice: a step, cut short by a power loss or not; the first step of a start bootstraps before it. */
    method Choose(to: State, c: Choice) returns (next: State)
      modifies this
      ensures Machine(cur, next, disk, vol) == Next(cfg, Machine(old(cur), to, old(disk), old(vol)), c)
    {
      hide Daemon.TransitionState, Bootstrap, CountedAtStart;
      var left := [disk];
      next, cuts := to, [];
      if to.kind.Init? {
        var counted := HandleBootstrapArtifact(c.env);
        left := left + [counted, disk];
      }
      if to.kind != Error(true) { next := TransitionState(to, c.env); }
      if c.PowerLoss? { next := Restart(At(left + cuts, c.cut, left[0])); }
    }

    /** The main loop of the daemon, over a sequence of choices. */
    method Run(to: State, choices: seq<Choice>) returns (next: State)
      modifies this
      ensures Machine(cur, next, disk, vol) == RunAll(cfg, Machine(old(cur), to, old(disk), old(vol)), choices)
    {
      hide Next;
      next := to;
      var i := 0;
      assert choices[0..] == choices;
      while i < |choices|
        invariant 0 <= i <= |choices|
        invariant RunAll(cfg, Machine(cur, next, disk, vol), choices[i..])
                  == RunAll(cfg, Machine(old(cur), to, old(disk), old(vol)), choices)
      {
        assert choices[i..][0] == choices[i] && choices[i..][1..] == choices[i + 1..];
        next := Choose(next, choices[i]);
        i := i + 1;
      }
    }
  }

  /** A device's whole life, from its first boot with this agent: the run that every result about runs speaks of. */
  method RunFromBoot(cfg: Config, d: Disk, choices: seq<Choice>) returns (m: Machine)
    ensures m == RunAll(cfg, Boot(d), choices)
  {
    var mender := new Mender(cfg, d);
    var next := mender.Run(mender.cur, choices);
    m := Machine(mender.cur, next, mender.disk, mender.vol);
  }
}
