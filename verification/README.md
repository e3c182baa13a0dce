# OTA Pulse agent: a verified model

The agent (`soc-ota-agent`) updates a device over the air or from the command line. This
project models the parts of it that decide whether a device survives an update, and
proves what holds over every run: scripts, payload handlers, the server, the database and
the power may fail at any point.

| file | what it models |
|---|---|
| `StateData.dfy`, `Datastore.dfy` | the stored records, and the transactions on them as functions |
| `Store.dfy` | the same transactions as a class that changes keys one by one |
| `Provides.dfy`, `Migration.dfy` | what sequences of commits and of saves and reloads amount to |
| `UpdateStates.dfy`, `Daemon.dfy` | the states of the update daemon, their handlers, one step and whole runs with power losses |
| `Mender.dfy` | the daemon as a class: `transitionState`, every handler and the main loop step by step |
| `Transitions.dfy` | where each state leads for every answer it can get, in terms of whole steps |
| `Starts.dfy`, `Resumption.dfy` | what every start of the agent does to the database before its first state, and where it takes a deployment up again |
| `Invariants.dfy`, `Progress.dfy`, `Outcomes.dfy`, `PointOfNoReturn.dfy`, `Recovery.dfy`, `Termination.dfy`, `Reporting.dfy`, `ReportRestarts.dfy` | what every run of the daemon keeps, and where it ends |
| `Endless.dfy`, `Walks.dfy` | runs that never end, and runs from the first boot of a device to the machines that the examples start from |
| `BlockDevice.dfy` | the chain of writers that puts an image on a partition |
| `Digits.dfy`, `Resumer.dfy`, `Backoff.dfy` | resuming downloads, Content-Range parsing, waiting times |
| `ControlMaps.dfy`, `ControlMapRules.dfy`, `ControlMapRuns.dfy`, `ControlMapViews.dfy`, `ControlMapPool.dfy` | update control maps: the answer to a query, what single maps and calls mean for it, what restarts do to it, what calls can tell about a pool, and the pool that computes it |
| `Partitions.dfy`, `DualRootfs.dfy`, `FileBootEnv.dfy` | the A/B slot switch, over an atomic environment and over files |
| `Standalone.dfy` | install, commit and rollback from the command line |
| `Wrappers.dfy` | shared types |

## How the daemon is modelled

A `Machine` is the controller's state, the state it will enter, the disk and the counters
that a restart forgets. `Daemon.TransitionState` is one step: Leave scripts, storing the
new state, Enter scripts, the handler. An `Env` value answers for everything outside the
agent during the step, so a statement for all `Env` covers every behaviour of scripts,
payloads, server and database. Each step also lists, as `cuts`, the disks that a power
loss inside it can leave; a run is a sequence of choices between going on and losing
power at one of them. The first step after a start begins with `HandleBootstrapArtifact`,
as app/daemon.go:90-95 does. The class `Mender` performs the same steps imperatively; each is proved
to go through exactly those disks, and its main loop to reach exactly the machines that the
results about runs speak of.

The disk carries a history that the agent does not have: the name stored before the
deployment, and facts such as "payload 0 was committed". It is only ever written by the
model and only read by the statements. `Transitions` and `Resumption` say for every state, and
for every record found at a start, where the next step leads, without naming a handler.

## What was found

- A report of success does not imply the clean artifact name. If the broken suffix is
  written and power is lost before the failure is stored, a boot from AfterFirstCommit or
  AfterCommit goes on and reports success under the broken name.
  `Walks.FlaggedSuccessFromBoot` shows a run, and `Outcomes.SuccessNameExactly` says when it happens.
- After the first commit the agent can still turn to a rollback: if storing a Cleanup or a
  report fails, or if a script of the pseudo-state "Error" fails around a Cleanup that was
  created for a failure. `PointOfNoReturn.RolledBackExactly` is the exact condition. A
  Cleanup created for success runs no such scripts, even when a payload's Cleanup fails
  (`PointOfNoReturn.FailedPayloadCleanup`).
- Every start counts the record of a deployment twice: `HandleBootstrapArtifact` loads it
  (app/mender.go:793) before `initState` does, and drops the error that says that the count
  has reached its maximum, which starts it over. So loop detection can be passed by for ever.
  A rollback reboot that always fails adds three to the count in each turn, and is given up
  exactly if its count on record is no multiple of three
  (`Endless.FailingRebootIsGivenUpExactly`). In an ordinary deployment whose new system
  cannot be verified that count is nine (`Walks.RollbackRebootIsReached`), so that it never
  ends (`Walks.DeploymentNeverEnds`). `Termination.EveryDeploymentEnds` therefore asks that
  only finitely many starts find the count at its maximum.
- A deployment can also go on for ever if power is lost at the right points: each time the
  loop limit fires (`Endless.LimitLossesNeverEnd`), each time before a start has loaded the
  record (`Endless.BootLossesNeverEnd`), or each time with a report due
  (`Endless.ReportLossesNeverEnd`). Apart from the starts above, nothing else has to be
  finite.
- For the same reason a deployment resumes, or goes on with its attempts to report, from a
  count of 30 but not from 29 (`Outcomes.ResumedFlaggedExactly`,
  `ReportRestarts.ResumedAttemptsExactly`).
- A start names a device that provides nothing "unknown", or as its bootstrap Artifact says,
  if there is no record or the count of the record is at its maximum; the latter in the
  middle of a deployment (`Starts.StartNamesExactly`).
- The attempts spent on a report are forgotten if the payload handlers cannot be restored at
  a start, or if its second load finds the maximum (`ReportRestarts.ResumedAttemptsExactly`).
- A Content-Range with an unknown size (`bytes 0-9/*`, allowed by section 4.2 of RFC 7233)
  is refused, although the comment in the code says that the size is optional; only
  leaving out the slash works (`Resumer.RangeAcceptedExactly`).
- If `switch-boot-slot.sh` fails and `upgrade_available` can be cleared, the following
  rollback finds nothing to do and `mender_boot_part` still names the new slot; a bootloader
  that follows it boots the slot of the failed install (`DualRootfs.FailedInstallExactly`).
- With file-based boot variables, a partition number with leading zeros is stored in
  another form than the agent compares with (`FileBootEnv.FileBasedBootEnv.InstallUpdate`):
  `03` becomes `3` (`Partitions.PaddedNumber`), and a rollback after the reboot then stays on
  the new slot (`DualRootfs.PaddedRollbackStays`).
- Type-info provides that hold `artifact_name` or `artifact_group` hide the stored name or
  group (`Provides.CommitOverrides`, `Provides.ReservedKeyWins`). The headers of an update
  cannot bring them in: app/state.go:905-919 and app/standalone.go:143-150 take both keys
  out first. But `HandleBootstrapArtifact` (app/mender.go:766-778) stores
  `artifact_name: unknown` among them on a device without a bootstrap Artifact, and it goes
  on hiding every name committed later until a commit clears that key, or everything
  (`Provides.UnknownNameStaysExactly`).
- A restart can change the answers of the update control maps. An expired map is saved as
  expired only by a later call, and a failed save is only logged: a map that has failed an
  update because it expired pauses it again after a restart
  (`ControlMapRuns.ExpiredMapComesBack`). `ControlMapRuns.RestartKeepsPoolExactly` says
  when a restart changes nothing, and `ControlMapViews.RestartIsNoticedExactly` when some
  later calls are answered differently.

## Model

| member | source | states |
|---|---|---|
| Mender.Mender.TransitionState | soc-ota-agent/app/mender.go:577-659 | one step of the daemon: the Leave scripts come before the controller's state changes, the new state is stored before its Enter scripts and its handler, each failure goes to the right state's error handling; the databases in between are exactly those of the model's power losses |
| Mender.Mender.RunHandler | soc-ota-agent/app/state.go:306-2298 | every handler, each with a body of its own, leaves the controller's state, counters, database and next state that the run model says |
| Mender.Mender.StartUp | soc-ota-agent/app/state.go:306-441 | a boot loads the record, restores the handlers and resumes, with the databases in between |
| Mender.Mender.Run | soc-ota-agent/app/daemon.go:118-165 | the main loop, over any sequence of steps and power losses, reaches the machine that the run model says |
| Mender.Mender.HandleBootstrapArtifact | soc-ota-agent/app/mender.go:741-844 | the database after the bootstrap of a start, for every outcome of its load, its look at the provides and its commits |
| Mender.RunFromBoot | soc-ota-agent/app/daemon.go:90-168 | the same for a new agent on any disk, every start with its bootstrap, so that every result about runs from a boot holds of the object |
| Mender.Mender.StoreUpdate | soc-ota-agent/app/state.go:791-969 | the payload types are stored before the payloads are written, the rollback support after; a conflict between payloads or a failed store ends in the state the code names |
| Mender.Mender.InstallUpdate | soc-ota-agent/app/state.go:1016-1112 | payloads are installed in order up to the first error; the reboot answers are stored before going on to a reboot or a commit |
| Mender.Mender.CommitUpdate | soc-ota-agent/app/state.go:455-535 | report, commit of payload 0, then one transaction for state and artifact |
| Mender.Mender.RollBack | soc-ota-agent/app/state.go:1780-1884 | all payloads are asked to roll back; reboots still unknown are asked for before deciding on a reboot |
| Mender.Mender.Report | soc-ota-agent/app/state.go:1492-1555 | the attempt counters in memory and in the stored update, and when logs are sent |
| Mender.ScanAll | soc-ota-agent/app/state.go:1677-1722 | the loop over payloads that need a reboot: custom ones run in order until one fails, a system reboot is remembered |
| Transitions.EnterStopsExactly | soc-ota-agent/app/transition.go:88-115 | which failing Enter scripts stop which pairs of states, in terms of the states: those of sync, download, installation, reboot and commit, and the Error scripts of an error or of a Cleanup for a failure |
| Transitions.LeaveStopsExactly | soc-ota-agent/app/transition.go:117-171 | the same for Leave scripts, none of which can stop the way into an error |
| Transitions.StoppedLeaving | soc-ota-agent/app/mender.go:594-616 | a step whose Leave scripts fail: where the error of the state it was in leads, and when it marks the name; nothing is stored |
| Transitions.StoppedStoring | soc-ota-agent/app/mender.go:637-645 | a step whose store fails: an error of the new state, or at the loop limit a report of failure and a marked name |
| Transitions.StoppedEntering | soc-ota-agent/app/mender.go:648-654 | a step whose Enter scripts fail: where the error of the new state leads, and when it marks the name |
| Transitions.StoredExactly | soc-ota-agent/app/mender.go:618-641 | a power loss right after the store finds the whole update, the new state and its count under the right key, and every other key as it was |
| Transitions.OnlyWayIsTaken | soc-ota-agent/app/state.go:991-1003 | the states that lead to one other state whatever happens |
| Transitions.FetchLeadsTo | soc-ota-agent/app/state.go:708-728 | refused before it starts, retried later, or stored |
| Transitions.FetchRetryLeadsTo | soc-ota-agent/app/state.go:1139-1161 | one more fetch exactly as long as the budget of waits lasts, then UpdateError |
| Transitions.StoreLeadsTo | soc-ota-agent/app/state.go:791-978 | the Store state goes on exactly when headers, dependencies, payloads, the answers about rollback, both stores and the server agree; which failures end in a report, which in a Cleanup, and that UpdateError, whose scripts come from the Artifact, is entered only once all payloads are stored |
| Transitions.PayloadsAreRecordedFirst | soc-ota-agent/app/state.go:834-850 | a power loss while payloads are stored finds their types on record |
| Transitions.InstallLeadsTo | soc-ota-agent/app/state.go:1016-1112 | the update goes on exactly when every payload has installed, every one has said whether it needs a reboot, and the answers are stored; to a reboot exactly if one needs it; everything else takes it back |
| Transitions.RebootLeadsTo | soc-ota-agent/app/state.go:1677-1723 | a failed custom reboot, or a server that refuses, rolls back; a host reboot that returns is an error; verification follows only if every payload has rebooted by itself |
| Transitions.VerifyLeadsTo | soc-ota-agent/app/state.go:1736-1745 | nothing goes on from a reboot that one payload has not verified |
| Transitions.FetchGateLeadsTo | soc-ota-agent/app/state.go:2149-2172 | an aborted refresh is an error of the state behind the gate, a failed one is retried |
| Transitions.FetchRetryGateLeadsTo | soc-ota-agent/app/state.go:2195-2218 | retried exactly as long as the budget of waits lasts |
| Transitions.GateLeadsTo | soc-ota-agent/app/state.go:2091-2128 | fail is an error of the state behind the gate; a pause holds the agent in front of it and is told to the server once per gate; anything else goes on |
| Transitions.PauseLeadsTo | soc-ota-agent/app/state.go:2241-2296 | a pause ends by asking for new maps, or at once if a map has changed |
| Transitions.CommitLeadsTo | soc-ota-agent/app/state.go:455-535 | the commit takes place exactly when the scripts fit, the server has taken the last report, payload 0 commits and the transaction is taken; what each other outcome leads to, with the artifact data and the record after it |
| Transitions.AnswersAreRecordedFirst | soc-ota-agent/app/state.go:1070-1112 | a power loss after the answers about reboots finds them on record |
| Transitions.CommitIsOneWrite | soc-ota-agent/app/state.go:508-526 | a power loss before the commit transaction finds nothing of it, one after it all of it |
| Transitions.PowerLossElsewhere | soc-ota-agent/app/mender.go:618-658 | in every other state a power loss finds the state stored, or not yet |
| Transitions.CommitRetryLeadsTo | soc-ota-agent/app/state.go:556-571 | the commit is tried again until the sends are used up, then fails |
| Transitions.FirstCommitLeadsTo | soc-ota-agent/app/state.go:584-624 | the other payloads commit, or the name is marked and Cleanup follows, never a rollback |
| Transitions.RollbackLeadsTo | soc-ota-agent/app/state.go:1780-1880 | a rollback of all payloads leads to a reboot exactly if one of them, asked early or late, wants it; a failing one marks the name |
| Transitions.VerifyRollbackLeadsTo | soc-ota-agent/app/state.go:1952-1969 | the way back reboots again until every payload has verified it |
| Transitions.CleanupLeadsTo | soc-ota-agent/app/state.go:1401-1436 | success is reported only from a Cleanup for success in which every payload cleaned up; pauses are forgotten |
| Transitions.ReportLeadsTo | soc-ota-agent/app/state.go:1469-1555 | when a report ends the deployment, when it or its logs are sent again, and every counter after it |
| Transitions.ReportRetryLeadsTo | soc-ota-agent/app/state.go:1612-1625 | resent until the sends are used up |
| Transitions.PollingLeadsTo | soc-ota-agent/app/state.go:289-300 | the old record goes before the next deployment is asked for, and an offered update starts from what the server says and nothing else |
| Progress.NothingSkipped | soc-ota-agent/app/state.go:1029-1033 | in every run with power losses, from a clean device that is not in the middle of a reboot: no payload is installed before the download was right and stored whole; no reboot, commit or report of success comes before every InstallUpdate has succeeded; and where a payload asked for a reboot, no commit or report of success before every VerifyReboot has |
| Resumption.StartLeadsTo | soc-ota-agent/app/state.go:306-441 | for every record and every failure, the state that the first step after a power loss leads to, through both loads |
| Resumption.StartCounts | soc-ota-agent/datastore/datastore.go:224-249 | a power loss during a start finds the record counted not at all, once or twice |
| Resumption.UncheckedScriptsNeverRun | soc-ota-agent/app/state.go:375-382 | from a boot on a record of Store or AfterStore, no continuation, power losses included, enters a state whose scripts come from the Artifact before the server is asked again, if the database works and the Error scripts pass |
| Resumption.UncheckedScriptsRunExactly | soc-ota-agent/app/state.go:375-382 | without those two assumptions: one step enters such a state if and only if a Cleanup or report cannot be stored, or an Error script fails at a Cleanup |
| Invariants.RunKeepsInv | soc-ota-agent/app/state.go:362-441 | in every run with power losses, the stored record, the update in memory, the artifact name and what has happened to the deployment agree |
| Outcomes.SuccessIsEarned | soc-ota-agent/app/state.go:1401-1433 | whenever success is about to be reported, every payload's commit, the ArtifactCommit_Leave scripts, the commit transaction and every payload's last Cleanup have succeeded |
| Outcomes.SuccessNameExactly | soc-ota-agent/app/state.go:614-655 | at that moment the stored name is the clean new one if and only if no boot resumed the deployment past its commit with the broken name already stored |
| Outcomes.ResumedFlaggedExactly | soc-ota-agent/app/state.go:306-360 | exactly which starts do that: the count is not one below its maximum, where the second load finds it, the handlers can be restored, the record says AfterFirstCommit or AfterCommit, and the stored name is already the broken one |
| Outcomes.FlaggedSuccess | soc-ota-agent/app/state.go:645-655 | a run of five choices that reports success under the broken name |
| Outcomes.StoredName | soc-ota-agent/app/state.go:2029-2038 | in every run the stored name is the old one, the new one, the new one with the suffix or, only on a device that had no name before the deployment, one that a start gave it; and the clean new one only after payload 0 was committed or there was none |
| Starts.StartNamesExactly | soc-ota-agent/app/mender.go:741-844 | a start gives a name exactly if the device provides nothing and there is no record below the limit, and which name |
| Starts.BootstrapRecounts | soc-ota-agent/app/mender.go:793-797 | the bootstrap counts the record, restarts a count at its maximum unnoticed, and changes nothing else of it |
| Starts.BootstrapGivesExactly | soc-ota-agent/app/mender.go:741-844 | the artifact data after every start, whatever fails: kept, that of the bootstrap Artifact without its list of clears, or "unknown" |
| PointOfNoReturn.NeverRolledBack | soc-ota-agent/app/state.go:397-420 | once AfterFirstCommit has been stored, no continuation of any kind enters a rollback state, if the database works and the Error scripts pass |
| PointOfNoReturn.NeverRolledBackFromBoot | soc-ota-agent/app/state.go:573-655 | the same for every run from a clean device |
| PointOfNoReturn.RolledBackExactly | soc-ota-agent/app/transition.go:88-94 | without those two assumptions: a step past the first commit turns to a rollback if and only if the payloads support it and a Cleanup or report cannot be stored, or an Error script fails on entering or leaving a Cleanup that was created for a failure |
| PointOfNoReturn.FailedPayloadCleanup | soc-ota-agent/app/state.go:1387-1433 | a Cleanup created for success whose payloads fail reports the failure, and no script can turn that to a rollback |
| PointOfNoReturn.RolledBackWithoutStore | soc-ota-agent/app/state.go:267-277 | the database assumption is needed |
| PointOfNoReturn.RolledBackByErrorScript | soc-ota-agent/app/transition.go:153-171 | the assumption on Error scripts is needed |
| Termination.EveryDeploymentEnds | soc-ota-agent/app/mender.go:577-659 | no infinite run stays inside a deployment: whatever scripts, payloads and server do and wherever power is lost, it comes back to the states between deployments, if only finitely many power losses come before a boot has loaded its record, with a report due, or after the loop limit has fired and before a record is loaded or a report or other ending state stored, and only finitely many starts find the count at its maximum |
| Endless.FailingRebootNeverEnds | soc-ota-agent/app/mender.go:793-797 | the condition on starts is needed: a run with a failing rollback reboot that never ends, in which no power loss is of those kinds |
| Endless.FailingRebootIsGivenUpExactly | soc-ota-agent/datastore/datastore.go:224-249 | such a rollback reboot is given up if and only if its count on record is no multiple of three |
| Endless.LimitLossesNeverEnd | soc-ota-agent/datastore/datastore.go:224-249 | a run that never ends, in which no power loss but the one in the step where the loop limit fires is of these kinds, and no start finds the maximum first |
| Endless.ReportLossesNeverEnd | soc-ota-agent/app/state.go:1460-1467 | the same with power lost only while a report is due |
| Endless.BootLossesNeverEnd | soc-ota-agent/app/state.go:306-318 | the same with power lost only before the record is loaded |
| Walks.RollbackRebootIsReached | soc-ota-agent/app/state.go:1780-1884 | from the first boot of a device: install, reboot, a failed verification and the rollback store the rollback reboot with the count nine |
| Walks.DeploymentNeverEnds | soc-ota-agent/app/state.go:1934-1969 | from there the deployment never ends if the rollback reboot cannot be verified either |
| Walks.FlaggedSuccessFromBoot | soc-ota-agent/app/state.go:645-655 | from the first boot of a device to a report of success under the broken name |
| Termination.NextDrops | soc-ota-agent/app/state.go:1934-1969 | every productive step that is no start at the maximum lowers a rank built from the phase, the retry budgets and the room below the loop limit |
| Recovery.RecordNamesTheState | soc-ota-agent/app/mender.go:618-658 | in every run, waits included, the stored record carries the id of the update state entered last, and a power loss during a step leaves that id or the one of the update state being entered |
| Recovery.OldRecordSurvives | soc-ota-agent/app/state.go:508-526 | a record of the old schema is untouched through all steps and power losses of an uncommitted update |
| Reporting.MaxSendsValues | soc-ota-agent/app/state.go:1598-1617 | the number of sends is 4, 9 or 11, and for which pairs of intervals |
| Reporting.VisitsAreBounded | soc-ota-agent/app/state.go:1513-1555 | with M that number, one reporting sequence without restarts visits StatusReport at most 2M-1 times, however report and log failures interleave, and 2M times if it starts so near the loop limit that the limit fires |
| Reporting.BoundIsSharp | soc-ota-agent/app/state.go:1612-1625 | some sequence of failures reaches that bound |
| ReportRestarts.RunRemembers | soc-ota-agent/app/state.go:1492-1511 | in every run the attempts kept with the update cover the failed sends stored since a report last landed |
| ReportRestarts.ResumedAttemptsExactly | soc-ota-agent/app/state.go:1460-1467 | before the limit has fired, a start resumes a report with at least that many attempts if and only if nothing had failed, or the handlers can be restored and the count is not one below its maximum |
| ReportRestarts.WedgedSendsAreBounded | soc-ota-agent/app/state.go:1492-1511 | over all restarts and loop limits, a report that keeps failing is sent at most M times, plus once for every power loss, plus M times for every firing of the loop limit |
| ReportRestarts.FreshReportIsBounded | soc-ota-agent/app/state.go:1612-1625 | the same bound from a fresh report on |
| Store.Transaction.GetProvidesToPreserve | soc-ota-agent/datastore/datastore.go:330-367 | what is left after the matched keys have been listed and deleted one by one |
| Store.Transaction.CommitArtifactData | soc-ota-agent/datastore/datastore.go:255-328 | name, provides and group after a commit, with a missing list of clears, an empty group, and provides overridden key by key |
| Store.Transaction.WriteRecord | soc-ota-agent/datastore/datastore.go:107-146 | the counted record goes under the right key, the count restarts at its maximum, and a final record removes the temporary one |
| Store.Database.StoreStateDataAndTransaction | soc-ota-agent/datastore/datastore.go:88-154 | all of it happens or none, and the count-exceeded result wins over a lost transaction |
| Store.Database.LoadStateData | soc-ota-agent/datastore/datastore.go:174-253 | which record is loaded, upgraded, counted and written back |
| Store.Database.LoadProvides | soc-ota-agent/datastore/datastore.go:45-81 | the three keys read as one map |
| Provides.CommitOverrides | soc-ota-agent/datastore/datastore.go:255-367 | seen through LoadProvides, a commit is "forget what is cleared, then override", the group being an ordinary provide, if and only if the stored entries agree with the two reserved keys |
| Provides.ReservedKeyWins | soc-ota-agent/datastore/datastore.go:66-75 | a commit where they do not |
| Provides.UnknownNameStaysExactly | soc-ota-agent/app/mender.go:766-778 | on a device that started without a bootstrap Artifact the provided name stays "unknown" over any sequence of commits, exactly until one of them clears it |
| Provides.LastWriterWins | soc-ota-agent/datastore/datastore.go:255-328 | after any sequence of commits each key has the value of the last commit that gave it, unless a later one cleared it |
| Migration.ReloadsTheLastSave | soc-ota-agent/datastore/datastore.go:174-253 | after any sequence of saves and reloads, failing or not, a reload finds the last save that went through; during a schema migration the old record is untouched |
| Migration.CommitIsAllOrNothing | soc-ota-agent/datastore/datastore.go:88-154 | the commit transaction changes nothing, or writes the record, removes the temporary one and writes the artifact data together, for all later saves and reloads |
| Migration.CountExactly | soc-ota-agent/datastore/datastore.go:107-146 | one save or reload counts from where the record stands and starts again from nothing over the limit |
| Migration.LimitExactly | soc-ota-agent/datastore/datastore.go:224-253 | exactly when it says that the limit is exceeded, also where the transaction is then lost |
| Migration.CountsInThirties | soc-ota-agent/datastore/datastore.go:107-146 | over any run of counted saves and reloads the limit is met once in thirty |
| BlockDevice.StoreUpdate | soc-ota-agent/installer/dual_rootfs_device.go:193-222 | the whole chain equals a plain copy: for any split of the image, any limit and any prior content, the device holds the first min(total, limit) bytes and is otherwise unchanged, durably, with the exact number of frames and dirty frames one device write and one sync for each dirty frame, a last one shorter than a sector excepted, and one sync in the end, and is closed; nothing beyond is touched whatever fails |
| BlockDevice.DirtyCountsFrames | soc-ota-agent/installer/block_device.go:370-387 | the dirty count is the number of frames with a differing byte |
| BlockDevice.ChunkSize | soc-ota-agent/installer/block_device.go:140-145 | the chunk is the sector size doubled as often as needed to reach 1 MiB and no more |
| BlockDevice.FlushingWriter.Write | soc-ota-agent/installer/block_device.go:417-435 | after a write without error fewer than the interval's bytes are unflushed, or everything is durable |
| BlockDevice.OptimizedBlockDeviceWriter.Write | soc-ota-agent/installer/block_device.go:356-388 | the frame is on the device afterwards, written only if it differed; a failure touches nothing outside it |
| BlockDevice.BlockFrameWriter.Write | soc-ota-agent/installer/block_device.go:307-329 | device and buffer together hold what has been accepted, in whole frames |
| BlockDevice.BlockFrameWriter.Close | soc-ota-agent/installer/block_device.go:332-341 | the rest is written as a last frame and synced |
| BlockDevice.LimitedWriteCloser.Write | soc-ota-agent/utils/limited_writer.go:29-53 | at most the remaining bytes are passed on, the rest is refused with ENOSPC and the count is right |
| BlockDevice.Copy | soc-ota-agent/installer/dual_rootfs_device.go:208-212 | piece by piece up to the first error, what has been accepted is the part of the image within the limit |
| Resumer.RangeAcceptedExactly | soc-ota-agent/client/update_resumer.go:113-172 | which well-formed Content-Range values are accepted under which status, and that the start is read back exactly |
| Resumer.ParsedRangeExactly | soc-ota-agent/client/update_resumer.go:121-157 | exactly which headers, of all strings, are read as which range |
| Resumer.PartialStartExactly | soc-ota-agent/client/update_resumer.go:113-166 | exactly which answers are used: the right status, a readable range that does not start too late, and no other size |
| Resumer.WellFormedMatches | soc-ota-agent/client/update_resumer.go:121-152 | a server that sends what its Content-Range says meets the condition on responses below |
| Resumer.UpdateResumer.StreamFromPartialContent | soc-ota-agent/client/update_resumer.go:154-172 | an accepted stream continues exactly at the current offset, also when the server starts earlier; a steady one is refused only for its header or if it ends before the offset |
| Resumer.UpdateResumer.Resume | soc-ota-agent/client/update_resumer.go:75-107 | it ends with a stream or with all retries of the download's lifetime spent; against a server that answers every request with the rest of the artifact, one retry is enough |
| Resumer.UpdateResumer.Read | soc-ota-agent/client/update_resumer.go:57-111 | the buffer receives exactly the next bytes of the artifact; the error of the last stream is passed on exactly where it is no break in the middle of the artifact; a stream that delivers all the rest is read to its end with every buffer filled, and then EOF is returned, also when it breaks off once and the server helps; Read terminates |
| Resumer.Download | soc-ota-agent/client/update_resumer.go:57-111 | over any sequence of reads the bytes are a prefix of the artifact, nothing skipped or repeated, and all of it at EOF if the length was right; with more reads than bytes and a steady stream, whole or with a helpful server, EOF comes and the whole artifact has arrived |
| Backoff.GetExponentialBackoffTime | soc-ota-agent/client/client.go:688-720 | the loop computes the closed form of the waiting time |
| Backoff.DoublingsIsLeast | soc-ota-agent/client/client.go:700-703 | n is the least number with unit * 2^n >= the maximum |
| Backoff.GivesUpExactlyAtBudget | soc-ota-agent/client/client.go:704-708 | it gives up if and only if the attempts reach maxAttempts, or 3 * (n + 1) when there is no such limit |
| Backoff.ThreeWaitsOfEach | soc-ota-agent/client/client.go:685-720 | three waits of each length, the unit doubled each time, then three of the maximum, then it gives up |
| Backoff.WaitsGrow | soc-ota-agent/client/client.go:685-720 | waits never get shorter, and lie between the unit and the larger of unit and maximum |
| ControlMapPool.ControlMapPool.QueryAndUpdate | soc-ota-agent/app/updatemanager.go:425-465 | sorting in place, the accumulated action list and the early return give the answer defined without them; the pool is permuted and exactly the right maps are advanced |
| ControlMapPool.QueryMaps | soc-ota-agent/app/updatemanager.go:425-465 | the loops behind it: the verdict of the highest deciding priority, or continue |
| ControlMapPool.UniquePriorities | soc-ota-agent/app/updatemanager.go:522-536 | exactly the priorities in use, strictly descending |
| ControlMapPool.QueryActionList | soc-ota-agent/app/updatemanager.go:545-568 | fail over pause over force_continue, which is returned as continue |
| ControlMapPool.ListIsVerdict | soc-ota-agent/app/updatemanager.go:436-460 | the actions of higher priorities that stay in the list change nothing |
| ControlMapPool.ControlMapPool.SaveToStore | soc-ota-agent/app/updatemanager.go:313-362 | active maps first, then expired ones, or no record for an empty pool |
| ControlMapPool.ControlMapPool.LoadFromStore | soc-ota-agent/app/updatemanager.go:366-403 | active maps first, sanitized, then the expired ones marked so; nothing if one of them is invalid |
| ControlMapPool.ControlMapPool.Expire | soc-ota-agent/app/updatecontrolmap/updatecontrolmap.go:60-72 | the map's flag is set and nothing is saved |
| ControlMapPool.ControlMapPool.Insert | soc-ota-agent/app/updatemanager.go:184-215 | the map with the same ID and priority goes, the new one comes last |
| ControlMapPool.ControlMapPool.InsertReplaceAllPriorities | soc-ota-agent/app/updatemanager.go:217-222 | all maps with the ID go |
| ControlMapPool.ControlMapPool.Delete | soc-ota-agent/app/updatemanager.go:255-277 | only the map with that ID and priority goes |
| ControlMapPool.ControlMapPool.ClearExpired | soc-ota-agent/app/updatemanager.go:286-305 | only expired maps go |
| ControlMaps.SomethingDecides | soc-ota-agent/app/updatemanager.go:437-464 | if any priority has a say, the highest such one decides |
| ControlMapRules.SanitizedExactly | soc-ota-agent/app/updatecontrolmap/updatecontrolmap.go:147-234 | for each state of a map, which of its rules are kept and with which action, expiry and follow-up, from the rule as it was sent |
| ControlMapRules.PauseExpiresToFail | soc-ota-agent/app/updatecontrolmap/updatecontrolmap.go:99-104 | a loaded map that pauses and says nothing of its expiry pauses, and fails once it has expired |
| ControlMapRules.ExpiredNeverPauses | soc-ota-agent/app/updatecontrolmap/updatecontrolmap.go:90-94 | expired maps can fail an update or let it go on, but never hold it back |
| ControlMapRules.RestoredExactly | soc-ota-agent/app/updatemanager.go:366-403 | map by map, what is loaded from the database, and which maps keep all of them out |
| ControlMapRules.AnswerExactly | soc-ota-agent/app/updatemanager.go:425-465 | the answer in terms of the maps: some map says fail, or pause, and no map of a higher priority says anything |
| ControlMapRules.AskedExactly | soc-ota-agent/app/updatemanager.go:437-464 | a query moves on exactly the maps above which nothing was said, to what they say once executed |
| ControlMapRules.ExpiredExactly | soc-ota-agent/app/updatecontrolmap/updatecontrolmap.go:60-72 | an expiry flags the maps with that ID and priority and changes nothing else |
| ControlMapRules.LeftExactly | soc-ota-agent/app/updatemanager.go:184-305 | how often each map is in the pool after an insertion, a deletion or a clearing |
| ControlMaps.SanitizeSettles | soc-ota-agent/app/updatecontrolmap/updatecontrolmap.go:216-234 | sanitizing fills every default, keeps valid maps valid and is idempotent |
| ControlMaps.DropsOnlyRejected | soc-ota-agent/app/updatemanager.go:407-422 | filtering loses exactly the maps it rejects and keeps the others as often as they were there |
| ControlMaps.OperationsKeepKeysUnique | soc-ota-agent/app/updatecontrolmap/updatecontrolmap.go:246-254 | every operation keeps at most one map for each ID and priority |
| ControlMaps.SameAnswer | soc-ota-agent/app/updatecontrolmap/updatecontrolmap.go:256-266 | pools that differ only in order and in rules that are all "continue" answer every query alike |
| ControlMapRuns.RunsKeepKeysUnique | soc-ota-agent/app/updatemanager.go:184-305 | so does every run, with restarts, expiries and failed saves, for the pool and for the saved maps |
| ControlMapRuns.ReloadIsSame | soc-ota-agent/app/updatemanager.go:313-403 | saving and reloading changes the order and drops inert rules, nothing else |
| ControlMapRuns.RestartKeepsPoolExactly | soc-ota-agent/app/updatemanager.go:313-403 | after any run, a restart changes nothing if and only if the pool is, up to order and inert rules, what it was when last saved or loaded |
| ControlMapRuns.ExpiryIsLostExactly | soc-ota-agent/app/updatecontrolmap/updatecontrolmap.go:60-72 | a restart right after an expiry forgets it if and only if an active map had that key |
| ControlMapRuns.FailedSaveIsLostExactly | soc-ota-agent/app/updatemanager.go:355-362 | a restart after a call whose save failed forgets it if and only if the call changed the pool |
| ControlMapRuns.ExpiredMapComesBack | soc-ota-agent/app/updatemanager.go:386-390 | a map whose expiry made a query answer "fail" answers "pause" again after a restart |
| ControlMapRuns.RestartsChangeNoAnswer | soc-ota-agent/app/updatemanager.go:313-465 | two runs with the same calls and expiries answer alike, whichever saves fail, wherever either restarts and however it orders its pool, if every restart comes where it changes nothing |
| ControlMapRuns.SavedRestartsSettle | soc-ota-agent/app/updatemanager.go:313-465 | a restart changes nothing if a save went through since the last expiry or failed save |
| ControlMapViews.AnsweredAlikeExactly | soc-ota-agent/app/updatemanager.go:425-465 | two pools answer every sequence of calls and expiries alike if and only if every ID, priority and state shows the same in both: what is said now, later and once expired, force_continue counting only above the lowest priority |
| ControlMapViews.RestartIsNoticedExactly | soc-ota-agent/app/updatemanager.go:366-403 | a restart changes the answer of some later calls if and only if it changes one of these |
| ControlMapViews.ExpiryIsNoticedExactly | soc-ota-agent/app/updatecontrolmap/updatecontrolmap.go:60-72 | a forgotten expiry is noticed if and only if the map was active and one of its rules ever says anything |
| Partitions.PaddedNumber | soc-ota-agent/installer/dual_rootfs_device.go:244-255 | a partition whose number is written back as another text |
| Partitions.NumberedExactly | soc-ota-agent/installer/dual_rootfs_device.go:244-255 | a partition whose name ends in a number is known by that number, zero included, in decimal and in capital hexadecimal, as far as it fits into 64 bits |
| Partitions.PrintsBackExactly | soc-ota-agent/installer/file_bootenv.go:205-211 | printing a parsed decimal gives the same text if and only if it had no leading zero |
| Partitions.FormsAgreeExactly | soc-ota-agent/installer/dual_rootfs_device.go:244-255 | the hexadecimal form is the same number, and is written back as the same text if and only if the number is canonical |
| DualRootfs.RollbackSelectsOrigin | soc-ota-agent/installer/dual_rootfs_device.go:127-180 | in every run of installs, reboots, commits, rollbacks and boot count fallbacks, failed writes and scripts included: a rollback of a pending update makes the next boot use the slot that ran at InstallUpdate |
| DualRootfs.RollbackIsSpent | soc-ota-agent/installer/dual_rootfs_device.go:484-521 | after a commit or rollback, a rollback changes nothing until the next install |
| DualRootfs.CountedBootsExactly | soc-ota-agent/installer/dual_rootfs_device.go:414-482 | after an install, with fewer than three counted boots the update can still be committed, and a rollback selects the old slot; from the third on there is nothing left to commit or roll back, unless the flags could not be written |
| DualRootfs.FailedInstallExactly | soc-ota-agent/installer/dual_rootfs_device.go:296-305 | a failed install and its rollback leave mender_boot_part as it was or naming the running slot, except exactly when the script failed and upgrade_available was cleared: then it names the new slot |
| DualRootfs.PaddedRollbackStays | soc-ota-agent/installer/dual_rootfs_device.go:145-167 | with a leading zero in the partition numbers, a rollback after the reboot selects the slot that is running |
| DualRootfs.DualRootfsDevice.GetInactive | soc-ota-agent/installer/partitions.go:59-98 | the cached lookup agrees with the configuration and the mounted root |
| DualRootfs.DualRootfsDevice.Install | soc-ota-agent/installer/dual_rootfs_device.go:257-305 | the environment after each outcome of write and script |
| DualRootfs.DualRootfsDevice.Rollback | soc-ota-agent/installer/dual_rootfs_device.go:127-180 | which partition is selected before and after the reboot, and when nothing is written |
| DualRootfs.DualRootfsDevice.Commit | soc-ota-agent/installer/dual_rootfs_device.go:484-508 | only a pending update can be committed |
| DualRootfs.DualRootfsDevice.CheckBootCount | soc-ota-agent/installer/dual_rootfs_device.go:414-482 | both flags are cleared if and only if an update is pending, bootcount is a number of at least three and the write succeeds; otherwise nothing changes |
| FileBootEnv.FileBasedBootEnv.WriteEnv | soc-ota-agent/installer/file_bootenv.go:133-170 | at every point of a write that selects a slot, failures and torn files included and in any order of the remaining keys, upgrade_available=1 implies that mender_boot_part and the FAT file name the target; without failures all variables are written |
| FileBootEnv.FileBasedBootEnv.InstallUpdate | soc-ota-agent/installer/dual_rootfs_device.go:257-278 | the same for the variables of an install, and the stored text is the configured one if and only if it is canonical |
| FileBootEnv.FileBasedBootEnv.WriteMenderBootPart | soc-ota-agent/installer/file_bootenv.go:241-268 | success means that both files name the partition; no flag is touched, the number comes before what is derived from it, and a slot file that cannot be written fails nothing |
| FileBootEnv.FileBasedBootEnv.WriteFile | soc-ota-agent/installer/file_bootenv.go:786-837 | with up to 15 attempts, each but the last ended by a read-only filesystem, one file is as before, partly or fully written, and no other changes |
| FileBootEnv.FileBasedBootEnv.ReconcileToBootedSlot | soc-ota-agent/installer/file_bootenv.go:615-660 | nothing changes while an update is pending or the root is not one of the pair, and never the FAT file or the flags; otherwise both files name the mounted root, the number first |
| FileBootEnv.SlotsAndNumbersAgree | soc-ota-agent/installer/file_bootenv.go:716-744 | slot letters and partition numbers are inverse to each other, and a is the first partition |
| Standalone.InstallWaitsExactly | soc-ota-agent/app/standalone.go:235-251 | exactly when an install leaves something to commit, and that the device is then as it was |
| Standalone.FailedInstallLeaves | soc-ota-agent/app/standalone.go:192-238 | a failed install is taken back as a whole, or leaves the broken name with the provides of the artifact |
| Standalone.CommitLeaves | soc-ota-agent/app/standalone.go:277-315 | name and provides after a commit, for every outcome of scripts and payloads |
| Standalone.RollbackLeaves | soc-ota-agent/app/standalone.go:317-388 | name and provides after a rollback, and where it is refused |
| Standalone.InstallThenCommit | soc-ota-agent/app/standalone.go:192-315 | an install that supports rollback followed by a commit: the device carries the name, group and provides of the artifact, with its clears applied, and nothing is pending |
| Standalone.InstallThenRollback | soc-ota-agent/app/standalone.go:192-355 | the same followed by a rollback: everything is as it was |
| Standalone.InstallCommitsAtOnce | soc-ota-agent/app/standalone.go:247-253 | without rollback support the same command commits |
| Standalone.InstallNameExactly | soc-ota-agent/app/standalone.go:192-265 | with a working database, exactly when an install leaves the new name, the old name or the broken one, also when payloads change their answer about rollback support between the two times they are asked |
| Standalone.CommitNameExactly | soc-ota-agent/app/standalone.go:277-315 | the same for a commit |
| Standalone.RollbackNameExactly | soc-ota-agent/app/standalone.go:317-355 | the same for a rollback |
| Standalone.RunNames | soc-ota-agent/app/standalone.go:442-512 | over any sequence of commands the name is the first one, that of an artifact committed without any error, or one with the suffix once |
| Standalone.Device.DoStandaloneInstall | soc-ota-agent/app/standalone.go:192-265 | the database after an install, for every failure, and exactly when it reports success |
| Standalone.Device.DoStandaloneRollback | soc-ota-agent/app/standalone.go:317-355 | the database after a rollback; the failure steps do not change its verdict; exactly when it reports success |
| Standalone.Device.CommitStates | soc-ota-agent/app/standalone.go:277-315 | payloads are committed up to the first error, which is undone if possible; a failing Leave script only marks the name |
| Standalone.Device.FailureStates | soc-ota-agent/app/standalone.go:442-475 | the name in hand after the failure steps: kept only if all were without error and a rollback took place |
| Standalone.Device.Cleanup | soc-ota-agent/app/standalone.go:477-512 | every payload is cleaned up; the pending record goes and the name comes in one transaction |
| Standalone.DetermineRollbackSupport | soc-ota-agent/app/standalone.go:514-542 | all payloads must answer alike |

## Left out

- HTTP, TLS, authorization, D-Bus, inventory, deployment logs and the command line parser: only their results (ok, transient, fatal) appear.
- The polling states: idle, waiting, inventory and update check are collapsed; their timers decide nothing about a deployment.
- `verifyArtifactDependencies`, artifact headers and signatures: their outcome is an input of the Store state.
- The wildcard library of `clears_artifact_provides`: matching is an arbitrary predicate.
- JSON: records that do not decode are left out, except unsupported record versions and control maps that fail validation. Reboot types are the three that the code writes.
- Aliasing: maps and slices shared between copies of an update, or control maps held by other code, are values here. Expiry timers become an operation that may happen at any time.
- Real time: waits are choices. A pause requested by a control map may last for ever and is excluded only from the termination result.
- Termination.EveryDeploymentEnds: assumes a working database, passing Error scripts, no pauses, and that the power losses and starts with which it is false are finitely many.
- Starts.BootstrapRecounts: the commands install, bootstrap, show-artifact and show-provides call HandleBootstrapArtifact too (cli/cli.go:505-517), so that they count the record of a deployment in progress, and restart its count, from outside the daemon; such commands between two steps of the daemon are not modelled.
- Standalone.RunNames: starts from the database as HandleBootstrapArtifact leaves it, which names a device that provides nothing.
- DualRootfs.RollbackSelectsOrigin: the next boot is that of a bootloader which follows `mender_boot_part`; on boards where `switch-boot-slot.sh` sets the slot by other means, what the script and the rollback scripts of those boards do is not modelled.
- Detection of the mounted root: the active partition is the mounted one; its fallbacks over /dev and the configuration, and failures to read the environment, are not modelled. U-Boot's own boot limit is not either.
- FileBootEnv.FileBasedBootEnv.WriteEnv: covers the FAT slot file but not cmdline.txt on boards without U-Boot, whose rewriting only logs its failures.
- UBI volumes, mounting and the ioctl calls of `Open`; what a Close after a failed write puts into the already failing part of the partition.
- Resumer.UpdateResumer.Read: the wait is not modelled, and maxWait is below half the 64-bit range of nanoseconds, so that no duration overflows.
- Standalone.Device.DoStandaloneInstall: the exit code that asks for a manual reboot is not modelled.
- Standalone data from before version 2.0.0, which is found through the boot environment, and text printed to the user.
- `installer/modules.go`, the setup wizard, snapshots, tunnels and the Rust monitor.
- Concurrency: the mutexes of the control map pool make each operation atomic, which is how it is modelled.
