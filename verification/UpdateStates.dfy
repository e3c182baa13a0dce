/**
 The states of app/state.go with the fields they carry, and the script
 transitions of app/transition.go that belong to them.
 */
module UpdateStates {
  import opened Wrappers
  import opened StateData

  /** The three states an update control map can hold back. */
  datatype Gate = InstallGate | RebootGate | CommitGate

  datatype Kind =
    | Init | Idle | CheckWait | UpdateCheck
    | Error(fatal: bool)
    | Fetch | FetchStoreRetry | Store | AfterStore | Install
    | RebootPauseRequested | Reboot | VerifyReboot | AfterReboot
    | Commit(tries: nat)
    | PreCommitRetry(tries: nat)           // returns to Commit(tries)
    | AfterFirstCommit | AfterCommit
    | Rollback | RollbackReboot | VerifyRollbackReboot | AfterRollbackReboot
    | UpdateError
    | Cleanup(success: bool)               // as it was created, which fixes its transition
    | StatusReport(success: bool, tries: nat, logTries: nat)
      // the tries it was created with, then the counters of the state it returns to
    | StatusReportRetry(success: bool, spent: nat, sends: nat, logSends: nat)
    | FetchControlMap(gate: Gate, pauseState: bool)
    | FetchRetryControlMap(gate: Gate, pauseState: bool)
    | ControlMap(gate: Gate, pauseState: bool)
    | ControlMapPause(gate: Gate)
  {
    /** Id(). */
    function Id(): StateId {
      match this
      case Init => IdInit
      case Idle => IdIdle
      case CheckWait => IdCheckWait
      case UpdateCheck => IdUpdateCheck
      case Error(_) => IdError
      case Fetch => IdUpdateFetch
      case FetchStoreRetry => IdFetchStoreRetryWait
      case Store => IdUpdateStore
      case AfterStore => IdUpdateAfterStore
      case Install => IdUpdateInstall
      case RebootPauseRequested => IdReboot
      case Reboot => IdReboot
      case VerifyReboot => IdAfterReboot
      case AfterReboot => IdAfterReboot
      case Commit(_) => IdUpdateCommit
      case PreCommitRetry(_) => IdPreCommitStatusReportRetry
      case AfterFirstCommit => IdUpdateAfterFirstCommit
      case AfterCommit => IdUpdateAfterCommit
      case Rollback => IdRollback
      case RollbackReboot => IdRollbackReboot
      case VerifyRollbackReboot => IdVerifyRollbackReboot
      case AfterRollbackReboot => IdAfterRollbackReboot
      case UpdateError => IdUpdateError
      case Cleanup(_) => IdUpdateCleanup
      case StatusReport(_, _, _) => IdUpdateStatusReport
      case StatusReportRetry(_, _, _, _) => IdStatusReportRetry
      case FetchControlMap(_, _) => IdFetchUpdateControl
      case FetchRetryControlMap(_, _) => IdFetchRetryUpdateControl
      case ControlMap(_, _) => IdUpdateControl
      case ControlMapPause(_) => IdUpdateControlPause
    }

    /** Transition(). */
    function Transition(): Transition {
      match this
      case Idle => ToIdle
      case CheckWait => ToIdle
      case UpdateCheck => ToSync
      case Error(_) => ToError
      case Fetch => ToDownloadEnter
      case FetchStoreRetry => ToDownloadEnter
      case Store => ToDownloadEnter
      case AfterStore => ToDownloadLeave
      case Install => ToArtifactInstall
      case RebootPauseRequested => ToArtifactRebootEnter
      case Reboot => ToArtifactRebootEnter
      case VerifyReboot => ToArtifactRebootLeave
      case AfterReboot => ToArtifactRebootLeave
      case Commit(_) => ToArtifactCommitEnter
      case PreCommitRetry(_) => ToArtifactCommitEnter
      case AfterCommit => ToArtifactCommitLeave
      case Rollback => ToArtifactRollback
      case RollbackReboot => ToArtifactRollbackRebootEnter
      case VerifyRollbackReboot => ToArtifactRollbackRebootLeave
      case AfterRollbackReboot => ToArtifactRollbackRebootLeave
      case UpdateError => ToArtifactFailure
      case Cleanup(success) => if success then ToNone else ToError
      case _ => ToNone
    }

    /** The states that implement UpdateState, and so are written to the database. */
    predicate IsUpdateState() {
      match this
      case Init | Idle | CheckWait | UpdateCheck | Error(_) => false
      case FetchStoreRetry | PreCommitRetry(_) => false
      case FetchControlMap(_, _) | FetchRetryControlMap(_, _) => false
      case ControlMap(_, _) | ControlMapPause(_) => false
      case _ => true
    }

    /** The states between two deployments, which carry no update. */
    predicate IsPolling() { Init? || Idle? || CheckWait? || UpdateCheck? || Error? }

    predicate PermitLooping() { StatusReportRetry? }

    predicate IsRollback() {
      Rollback? || RollbackReboot? || VerifyRollbackReboot? || AfterRollbackReboot?
    }

    predicate IsGate() { FetchControlMap? || FetchRetryControlMap? || ControlMap? || ControlMapPause? }

    predicate IsEnding() { IsRollback() || UpdateError? || Cleanup? || IsReporting() }

    predicate IsReporting() { StatusReport? || StatusReportRetry? }
  }

  /** A state and the update it carries; NO_UPDATE for those that carry none. */
  datatype State = State(kind: Kind, info: UpdateInfo)

  const NO_UPDATE := UpdateInfo("", "", "", None, None, [], [], SupportUnknown, 0, false, 0)

  function Polling(kind: Kind): State { State(kind, NO_UPDATE) }

  /** The state a control map gate wraps. */
  function Wrapped(gate: Gate): Kind {
    match gate
    case InstallGate => Install
    case RebootGate => Reboot
    case CommitGate => Commit(0)
  }

  // ---------------------------------------------------------------- transitions

  datatype Transition =
    | ToNone | ToIdle | ToSync | ToError
    | ToDownloadEnter | ToDownloadLeave | ToArtifactInstall
    | ToArtifactRebootEnter | ToArtifactRebootLeave
    | ToArtifactCommitEnter | ToArtifactCommitLeave
    | ToArtifactRollback | ToArtifactRollbackRebootEnter | ToArtifactRollbackRebootLeave
    | ToArtifactFailure
  {
    predicate IsToError() {
      ToError? || ToArtifactFailure? || ToArtifactRollback?
      || ToArtifactRollbackRebootEnter? || ToArtifactRollbackRebootLeave?
    }

    /** ignoreErrors. */
    predicate IgnoresErrors() {
      ToIdle? || ToArtifactRollback? || ToArtifactRollbackRebootEnter?
      || ToArtifactRollbackRebootLeave? || ToArtifactFailure?
    }

    /**
     Whether getName finds scripts for an action: a transition named X_Enter has no
     Leave scripts, and one named X_Leave has no Enter scripts.
     */
    predicate HasScripts(action: Action) {
      match this
      case ToNone => false
      case ToDownloadEnter | ToArtifactRebootEnter | ToArtifactCommitEnter
        | ToArtifactRollbackRebootEnter => !action.LeaveAction?
      case ToDownloadLeave | ToArtifactRebootLeave | ToArtifactCommitLeave
        | ToArtifactRollbackRebootLeave => !action.EnterAction?
      case _ => true
    }
  }

  datatype Action = EnterAction | LeaveAction | ErrorAction

  predicate ShouldTransit(from: Kind, to: Kind) { from.Transition() != to.Transition() }
}
