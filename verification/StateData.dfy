/**
 The records of datastore/statedata.go: what the agent keeps about the update in
 progress, and the two setters that change it in place.
 */
module StateData {
  import opened Wrappers

  /** The version written by this agent; 0 and 1 are the old schema. */
  const CURRENT_VERSION: nat := 2

  /** Appended to the artifact name when the device may be in a mixed state (conf/paths.go). */
  const BROKEN_SUFFIX := "_"

  datatype StateId =
    | IdInit | IdIdle | IdCheckWait | IdUpdateCheck
    | IdUpdateFetch | IdUpdateStore | IdUpdateAfterStore | IdUpdateInstall | IdFetchStoreRetryWait
    | IdUpdateVerify | IdPreCommitStatusReportRetry
    | IdUpdateCommit | IdUpdateAfterFirstCommit | IdUpdateAfterCommit
    | IdUpdateStatusReport | IdStatusReportRetry
    | IdReboot | IdVerifyReboot | IdAfterReboot
    | IdRollback | IdRollbackReboot | IdVerifyRollbackReboot | IdAfterRollbackReboot
    | IdError | IdUpdateError | IdUpdateCleanup
    | IdUpdateControl | IdUpdateControlPause | IdFetchUpdateControl | IdFetchRetryUpdateControl
    | IdReportStatusError

  datatype RollbackSupport = SupportUnknown | NotSupported | Supported

  datatype RebootType = RebootNone | RebootCustom | RebootAutomatic

  datatype UpdateInfo = UpdateInfo(
    id: string,
    artifactName: string,
    artifactGroup: string,
    newProvides: Option<map<string, string>>,
    clears: Option<seq<string>>,
    payloadTypes: seq<string>,
    rebootRequested: seq<RebootType>,
    supportsRollback: RollbackSupport,
    storeCount: nat,
    schemaUpdate: bool,
    reportAttempts: nat)

  datatype Record = Record(version: nat, name: StateId, info: UpdateInfo)

  /** SupportsRollbackType.Set: all payloads must agree; None is the conflict error. */
  function SetSupport(current: RollbackSupport, value: RollbackSupport): Option<RollbackSupport> {
    if current.SupportUnknown? then Some(value)
    else if current != value then None
    else Some(current)
  }

  /** RebootRequestedType.Get: None is the "information missing" error. */
  function GetReboot(requested: seq<RebootType>, n: nat): Option<RebootType> {
    if n < |requested| then Some(requested[n]) else None
  }

  /** RebootRequestedType.Set: entries are appended in order; None is the ordering error. */
  function SetReboot(requested: seq<RebootType>, n: nat, t: RebootType): Option<seq<RebootType>> {
    if n == |requested| then Some(requested + [t]) else None
  }
}
