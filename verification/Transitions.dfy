/**
 Where each state leads: for every answer of the scripts, the payloads, the server and
 the database, what the next state is, stated over whole steps of the daemon.
 */
module Transitions {
  import opened Wrappers
  import opened StateData
  import opened Datastore
  import opened UpdateStates
  import opened Daemon
  import Backoff

  // ----------------------------------------------------------------- scripts

  predicate Downloading(k: Kind) { k.Fetch? || k.FetchStoreRetry? || k.Store? }

  predicate Rebooting(k: Kind) { k.RebootPauseRequested? || k.Reboot? }

  predicate Rebooted(k: Kind) { k.VerifyReboot? || k.AfterReboot? }

  predicate Committing(k: Kind) { k.Commit? || k.PreCommitRetry? }

  /** The states whose scripts are those of "Error". */
  predicate Erring(k: Kind) { k.Error? || k == Cleanup(false) }

  predicate TakesBack(k: Kind) { Erring(k) || k.UpdateError? || k.IsRollback() }

  lemma ScriptsOf(k: Kind)
    ensures k.Transition().ToSync? <==> k.UpdateCheck?
    ensures k.Transition().ToDownloadEnter? <==> Downloading(k)
    ensures k.Transition().ToDownloadLeave? <==> k.AfterStore?
    ensures k.Transition().ToArtifactInstall? <==> k.Install?
    ensures k.Transition().ToArtifactRebootEnter? <==> Rebooting(k)
    ensures k.Transition().ToArtifactRebootLeave? <==> Rebooted(k)
    ensures k.Transition().ToArtifactCommitEnter? <==> Committing(k)
    ensures k.Transition().ToArtifactCommitLeave? <==> k.AfterCommit?
    ensures k.Transition().ToError? <==> Erring(k)
    ensures k.Transition().IsToError() <==> TakesBack(k)
  {
  }

  lemma ScriptsThatStop(t: Transition, env: Env)
    ensures !ScriptsPass(t, EnterAction, env) <==>
            || (!env.enter && (t.ToSync? || t.ToDownloadEnter? || t.ToArtifactInstall? || t.ToArtifactRebootEnter?
                               || t.ToArtifactCommitEnter?))
            || (!env.errorScripts && t.ToError?)
    ensures !ScriptsPass(t, LeaveAction, env) <==>
            || (!env.leave && (t.ToSync? || t.ToDownloadLeave? || t.ToArtifactInstall? || t.ToArtifactRebootLeave?
                               || t.ToArtifactCommitLeave?))
            || (!env.errorScripts && t.ToError?)
  {
  }

  /** Which failing Enter scripts keep a state from being entered. */
  lemma EnterStopsExactly(from: Kind, to: Kind, env: Env)
    ensures !EnterPasses(from, to, env) <==>
            || (!env.enter && (|| (to.UpdateCheck? && !from.UpdateCheck?)
                               || (Downloading(to) && !Downloading(from))
                               || (to.Install? && !from.Install?)
                               || (Rebooting(to) && !Rebooting(from))
                               || (Committing(to) && !Committing(from))))
            || (!env.errorScripts && Erring(to) && !Erring(from))
  {
    hide Kind.Transition, Downloading, Rebooting, Committing, Erring, ScriptsPass;
    ScriptsThatStop(to.Transition(), env);
    ScriptsOf(from);
    ScriptsOf(to);
  }

  /** Which failing Leave scripts keep a state from being left; on the way into an error none can. */
  lemma LeaveStopsExactly(from: Kind, to: Kind, env: Env)
    ensures !LeavePasses(from, to, env) <==>
            || (!env.leave && !TakesBack(to) && (|| (from.UpdateCheck? && !to.UpdateCheck?)
                                                 || (from.AfterStore? && !to.AfterStore?)
                                                 || (from.Install? && !to.Install?)
                                                 || (Rebooted(from) && !Rebooted(to))
                                                 || (from.AfterCommit? && !to.AfterCommit?)))
            || (!env.errorScripts && Erring(from) && !Erring(to))
  {
    hide Kind.Transition, Downloading, Rebooted, Committing, Erring, TakesBack, ScriptsPass;
    ScriptsThatStop(from.Transition(), env);
    ScriptsOf(from);
    ScriptsOf(to);
  }

  // ------------------------------------------------------------------ errors

  /** The states an error ends in a rollback, where the payloads support one. */
  predicate Undoable(k: Kind) {
    || k.Install? || Rebooting(k) || Rebooted(k) || k.Commit? || k.AfterRollbackReboot? || k.Cleanup?
    || k.StatusReport?
  }

  /** Where an error in state s leads. */
  predicate FallsTo(s: State, fatal: bool, to: State) {
    if Undoable(s.kind) then to == State(if s.info.supportsRollback.Supported? then Rollback else UpdateError, s.info)
    else if s.kind.Fetch? || s.kind.Rollback? then to == State(UpdateError, s.info)
    else if s.kind.Store? || s.kind.AfterStore? || s.kind.AfterFirstCommit? || s.kind.AfterCommit? then
      to == State(Cleanup(false), s.info)
    else if s.kind.RollbackReboot? then to == State(VerifyRollbackReboot, s.info)
    else if s.kind.VerifyRollbackReboot? then to == State(RollbackReboot, s.info)
    else to == Polling(Error(fatal))
  }

  /** The errors after which the device may be in a mixed state. */
  predicate Marks(s: State) {
    || s.kind.AfterFirstCommit? || s.kind.AfterCommit? || s.kind.Rollback?
    || (Undoable(s.kind) && !s.info.supportsRollback.Supported?)
  }

  function Marked(a: Artifact, info: UpdateInfo, ok: bool): Artifact {
    if ok then a.(name := Some(info.artifactName + "_")) else a
  }

  predicate FallsFrom(s: State, a: Artifact, fatal: bool, env: Env, to: State, a': Artifact) {
    && FallsTo(s, fatal, to)
    && a' == (if Marks(s) then Marked(a, s.info, env.flagOk) else a)
  }

  /** An error in state s, met while the machine was m. */
  predicate Falls(s: State, m: Machine, m': Machine, fatal: bool, env: Env) {
    FallsFrom(s, m.disk.db.artifact, fatal, env, m'.to, m'.disk.db.artifact)
  }

  lemma ErrorFalls(s: State, d: Disk, fatal: bool, env: Env)
    ensures var (d', next) := HandleError(s, d, fatal, env);
            && FallsFrom(s, d.db.artifact, fatal, env, next, d'.db.artifact)
            && (Undoable(s.kind) ==> next.info == s.info && (next.kind.Rollback? || next.kind.UpdateError?))
            && d' == d.(db := d.db.(artifact := d'.db.artifact))
  {
  }

  /** A Leave script that stops the agent is an error of the state it was in. */
  lemma StoppedLeaving(cfg: Config, m: Machine, env: Env)
    requires !Exited(m) && !m.to.kind.Init? && !LeavePasses(m.cur.kind, m.to.kind, env)
    ensures var m' := Next(cfg, m, Go(env));
            Falls(m.cur, m, m', false, env) && m'.cur == m.cur && m'.vol == m.vol
            && m'.disk.db.(artifact := m.disk.db.artifact) == m.disk.db
  {
    hide HandleError;
    ErrorFalls(m.cur, m.disk, false, env);
  }

  // ------------------------------------------------------- storing the state

  /** The count found under the key of the record that the new state is stored in. */
  function CountFound(m: Machine): nat {
    var slot := if m.to.info.schemaUpdate then m.disk.db.uncommitted else m.disk.db.state;
    if slot.Some? then slot.value.info.storeCount else m.to.info.storeCount
  }

  /** The states that the database is not told of. */
  predicate Waits(k: Kind) {
    || k.Init? || k.Idle? || k.CheckWait? || k.UpdateCheck? || k.Error? || k.FetchStoreRetry? || k.PreCommitRetry?
    || k.FetchControlMap? || k.FetchRetryControlMap? || k.ControlMap? || k.ControlMapPause?
  }

  predicate Stores(m: Machine, env: Env) {
    !Waits(m.to.kind) ==> env.storeFault.NoFault? && CountFound(m) < 30
  }

  /** The agent gets past the Leave scripts. */
  predicate Leaves(m: Machine, env: Env) {
    !Exited(m) && !m.to.kind.Init? && LeavePasses(m.cur.kind, m.to.kind, env)
  }

  lemma StoreFails(m: Machine, env: Env)
    requires m.to.kind.IsUpdateState() && !Stores(m, env)
    ensures var (d, r) := StoreNewState(Left(m), env);
            && d.db.artifact == m.disk.db.artifact
            && (if env.storeFault.Refused? || CountFound(m) < 30 then
                  r.StoreFailed? && (LimitHit in d.history.facts <==> LimitHit in m.disk.history.facts)
                else r.CountExceeded? && LimitHit in d.history.facts)
  {
  }

  /** A store that only the database refuses is an error of the new state; the loop limit is reported. */
  lemma StoppedStoring(cfg: Config, m: Machine, env: Env)
    requires Leaves(m, env) && !Stores(m, env)
    ensures var m' := Next(cfg, m, Go(env));
            && m'.cur == m.to && m'.vol == m.vol
            && (if env.storeFault.Refused? || CountFound(m) < 30 then
                  && Falls(m.to, m, m', true, env)
                  && (LimitHit in m'.disk.history.facts <==> LimitHit in m.disk.history.facts)
                else
                  && m'.to == State(StatusReport(false, 0, 0), m.to.info) && LimitHit in m'.disk.history.facts
                  && m'.disk.db.artifact == Marked(m.disk.db.artifact, m.to.info, env.flagOk))
  {
    hide HandleError, StoreNewState, FallsTo, Marks;
    var d := StoreNewState(Left(m), env).0;
    ErrorFalls(m.to, d, true, env);
    StoreFails(m, env);
  }

  /** The count goes up when the agent moves between update states, waiting for a resend excepted. */
  function CountStored(m: Machine): nat {
    CountFound(m) + (if m.cur.kind.IsUpdateState() && m.to.kind.IsUpdateState()
                        && !m.cur.kind.StatusReportRetry? && !m.to.kind.StatusReportRetry? then 1 else 0)
  }

  /** What the database says about the update, under the key of the schema in use. */
  predicate Keeps(db: Db, name: StateId, info: UpdateInfo, count: nat) {
    var stored := Some(Record(2, name, info.(storeCount := count)));
    if info.schemaUpdate then db.uncommitted == stored else db.state == stored && db.uncommitted.None?
  }

  /**
   A power loss right after the store finds the new state, the whole update and the
   count, under the key of the running schema, and the artifact as it was.
   */
  lemma StoredExactly(cfg: Config, m: Machine, env: Env)
    requires Leaves(m, env) && Stores(m, env) && !Waits(m.to.kind)
    ensures var db := Next(cfg, m, PowerLoss(env, 1)).disk.db;
            Keeps(db, m.to.kind.Id(), m.to.info, CountStored(m)) && db.artifact == m.disk.db.artifact
            && (m.to.info.schemaUpdate ==> db.state == m.disk.db.state)
  {
    hide EnterAndHandle;
    var (d, r) := StoreNewState(Left(m), env);
    assert At(Cuts(cfg, m, env), 1, m.disk) == d;
  }

  /** The state is entered, and its handler runs. */
  predicate Runs(m: Machine, env: Env) {
    Leaves(m, env) && Stores(m, env) && EnterPasses(m.cur.kind, m.to.kind, env)
  }

  /** An Enter script that stops the agent is an error of the new state. */
  lemma StoppedEntering(cfg: Config, m: Machine, env: Env)
    requires Leaves(m, env) && Stores(m, env) && !EnterPasses(m.cur.kind, m.to.kind, env)
    ensures var m' := Next(cfg, m, Go(env));
            Falls(m.to, m, m', false, env) && m'.cur == m.to && m'.vol == m.vol
  {
    hide HandleError, StoreNewState, FallsTo, Marks;
    var d := EntryDisk(m, env);
    EntryKeepsArtifact(m, env);
    ErrorFalls(m.to, d, false, env);
  }

  function EntryDisk(m: Machine, env: Env): Disk {
    if m.to.kind.IsUpdateState() then StoreNewState(Left(m), env).0 else Left(m).disk
  }

  lemma EntryKeepsArtifact(m: Machine, env: Env)
    ensures EntryDisk(m, env).db.artifact == m.disk.db.artifact
    ensures m.to.kind.IsUpdateState() ==>
              (StoreNewState(Left(m), env).1.Stored? <==> env.storeFault.NoFault? && CountFound(m) < 30)
    ensures !m.to.kind.IsUpdateState() ==> EntryDisk(m, env).db == m.disk.db
  {
  }

  lemma HandlerRuns(cfg: Config, m: Machine, env: Env)
    requires Runs(m, env)
    ensures var o := Handle(cfg, m.to, EntryDisk(m, env), m.vol, env);
            Next(cfg, m, Go(env)) == Machine(o.cur, o.next, o.disk, o.vol)
    ensures EntryDisk(m, env).db.artifact == m.disk.db.artifact
  {
    hide Handle, StoreNewState;
    EntryKeepsArtifact(m, env);
  }

  // ------------------------------------------------------------ plain handlers

  /** The update goes on unchanged. */
  predicate Leads(m: Machine, m': Machine, kind: Kind) {
    && m'.to == State(kind, m.to.info) && m'.cur == m.to
    && m'.disk.db.artifact == m.disk.db.artifact
  }

  /** The states that lead to one other state whatever happens. */
  function OnlyWay(k: Kind): Option<Kind> {
    match k
    case AfterStore => Some(FetchControlMap(InstallGate, false))
    case RebootPauseRequested => Some(ControlMap(RebootGate, false))
    case AfterReboot => Some(FetchControlMap(CommitGate, false))
    case AfterCommit => Some(Cleanup(true))
    case RollbackReboot => Some(VerifyRollbackReboot)
    case AfterRollbackReboot => Some(UpdateError)
    case UpdateError => Some(Cleanup(false))
    case _ => None
  }

  lemma OnlyWayIsTaken(cfg: Config, m: Machine, env: Env)
    requires Runs(m, env) && OnlyWay(m.to.kind).Some?
    ensures var m' := Next(cfg, m, Go(env)); Leads(m, m', OnlyWay(m.to.kind).value) && m'.vol == m.vol
  {
    hide Runs, Next, EntryDisk, HandleStore, HandleInstall, HandleReboot, HandleCommit, HandleVerifyReboot;
    hide HandleStatusReport, HandleRollback, HandlePolling, HandleGate;
    HandlerRuns(cfg, m, env);
  }

  /** The fetch: refused before it starts, retried later, or under way. */
  lemma FetchLeadsTo(cfg: Config, m: Machine, env: Env)
    requires Runs(m, env) && m.to.kind.Fetch?
    ensures var m' := Next(cfg, m, Go(env));
            && m'.vol == m.vol
            && Leads(m, m', if !env.logger || env.report.Fatal? then StatusReport(false, 0, 0)
                            else if env.fetched then Store else FetchStoreRetry)
  {
    hide Runs, Next, EntryDisk, HandlePolling, HandleGate, HandleEnding;
    HandlerRuns(cfg, m, env);
  }

  lemma GivesUpExactly(cfg: Config, attempts: nat)
    ensures GivesUp(cfg, attempts) <==> attempts >= Backoff.Budget(cfg.updatePoll, cfg.retryCount, cfg.unit)
  {
    Backoff.GivesUpExactlyAtBudget(attempts, cfg.updatePoll, cfg.retryCount, cfg.unit);
  }

  /** One more fetch as long as the budget of waits lasts. */
  lemma FetchRetryLeadsTo(cfg: Config, m: Machine, env: Env)
    requires Runs(m, env) && m.to.kind.FetchStoreRetry?
    ensures var m' := Next(cfg, m, Go(env));
            if m.vol.fetchAttempts < Backoff.Budget(cfg.updatePoll, cfg.retryCount, cfg.unit)
            then Leads(m, m', Fetch) && m'.vol == m.vol.(fetchAttempts := m.vol.fetchAttempts + 1)
            else Leads(m, m', UpdateError) && m'.vol == m.vol
  {
    hide Runs, Next, EntryDisk, GivesUp, HandlePolling, HandleGate, HandleEnding;
    HandlerRuns(cfg, m, env);
    GivesUpExactly(cfg, m.vol.fetchAttempts);
  }

  // -------------------------------------------------------------------- gates

  /** Nothing passes a gate whose maps are aborted or cannot be fetched for good. */
  lemma FetchGateLeadsTo(cfg: Config, m: Machine, env: Env)
    requires Runs(m, env) && m.to.kind.FetchControlMap?
    ensures var m' := Next(cfg, m, Go(env));
            var (g, p) := (m.to.kind.gate, m.to.kind.pauseState);
            if env.hasMap && env.refresh.Aborted? then
              Falls(State(Wrapped(g), m.to.info), m, m', false, env) && m'.vol == m.vol
            else if env.hasMap && env.refresh.RefreshFailed? then
              Leads(m, m', FetchRetryControlMap(g, p)) && m'.vol == m.vol
            else Leads(m, m', ControlMap(g, p)) && m'.vol == m.vol.(mapAttempts := 0)
  {
    hide Runs, Next, EntryDisk, HandleError, HandlePolling, HandleForward, HandleEnding, FallsFrom;
    HandlerRuns(cfg, m, env);
    ErrorFalls(State(Wrapped(m.to.kind.gate), m.to.info), EntryDisk(m, env), false, env);
  }

  lemma FetchRetryGateLeadsTo(cfg: Config, m: Machine, env: Env)
    requires Runs(m, env) && m.to.kind.FetchRetryControlMap?
    ensures var m' := Next(cfg, m, Go(env));
            var (g, p) := (m.to.kind.gate, m.to.kind.pauseState);
            if m.vol.mapAttempts < Backoff.Budget(cfg.updatePoll, cfg.retryCount, cfg.unit) then
              Leads(m, m', FetchControlMap(g, p)) && m'.vol == m.vol.(mapAttempts := m.vol.mapAttempts + 1)
            else Falls(State(Wrapped(g), m.to.info), m, m', false, env) && m'.vol == m.vol
  {
    hide Runs, Next, EntryDisk, HandleError, GivesUp, HandlePolling, HandleForward, HandleEnding, FallsFrom;
    HandlerRuns(cfg, m, env);
    GivesUpExactly(cfg, m.vol.mapAttempts);
    ErrorFalls(State(Wrapped(m.to.kind.gate), m.to.info), EntryDisk(m, env), false, env);
  }

  /**
   The gate opens unless the maps say fail or pause: fail is an error of the state behind
   it, and a pause keeps the agent in front of it, told to the server once per gate.
   */
  lemma GateLeadsTo(cfg: Config, m: Machine, env: Env)
    requires Runs(m, env) && m.to.kind.ControlMap?
    ensures var m' := Next(cfg, m, Go(env));
            var (g, p) := (m.to.kind.gate, m.to.kind.pauseState);
            var tell := env.action.Pause? && !p;
            && m'.vol == m.vol.(pauseReported := m.vol.pauseReported + if tell then {g} else {})
            && (env.action.Continue? ==>
                  && (g == InstallGate <==> m'.to.kind == Install) && (g == RebootGate <==> m'.to.kind == Reboot)
                  && (g == CommitGate <==> m'.to.kind == Commit(0)))
            && (if env.action.Fail? then Falls(State(Wrapped(g), m.to.info), m, m', false, env)
                else if tell && env.report.Fatal? && g !in m.vol.pauseReported then
                  Falls(State(Wrapped(g), m.to.info), m, m', true, env)
                else Leads(m, m', if !env.action.Pause? then Wrapped(g)
                                  else if p then RebootPauseRequested else ControlMapPause(g)))
  {
    hide Runs, Next, EntryDisk, HandleError, HandlePolling, HandleForward, HandleEnding, FallsFrom;
    HandlerRuns(cfg, m, env);
    ErrorFalls(State(Wrapped(m.to.kind.gate), m.to.info), EntryDisk(m, env), false, env);
    ErrorFalls(State(Wrapped(m.to.kind.gate), m.to.info), EntryDisk(m, env), true, env);
  }

  /** A pause ends by asking again: for new maps, unless a map has changed meanwhile. */
  lemma PauseLeadsTo(cfg: Config, m: Machine, env: Env)
    requires Runs(m, env) && m.to.kind.ControlMapPause?
    ensures var m' := Next(cfg, m, Go(env));
            && m'.vol == m.vol
            && Leads(m, m', if env.mapsLeft && !env.mapChanged then FetchControlMap(m.to.kind.gate, false)
                            else ControlMap(m.to.kind.gate, false))
  {
    hide Runs, Next, EntryDisk, HandlePolling, HandleForward, HandleEnding;
    HandlerRuns(cfg, m, env);
  }

  // -------------------------------------------------- download and installation

  /** The count that the n-th store of a handler finds, the entry having stored once. */
  predicate Fits(m: Machine, n: nat) { CountStored(m) + n < 30 }

  /** A store inside a handler: it fits and the database takes it, or the limit fires, or the database refuses. */
  predicate Taken(m: Machine, n: nat, fault: Fault) { fault.NoFault? && Fits(m, n) }

  predicate OverLimit(m: Machine, n: nat, fault: Fault) { !fault.Refused? && !Fits(m, n) }

  lemma EntryCount(m: Machine, env: Env, info: UpdateInfo)
    requires Runs(m, env) && m.to.kind.IsUpdateState() && info.schemaUpdate == m.to.info.schemaUpdate
    ensures CountFor(EntryDisk(m, env).db, info) == CountStored(m)
  {
  }

  lemma PutTaken(m: Machine, d: Disk, id: StateId, info: UpdateInfo, n: nat, fault: Fault)
    requires CountFor(d.db, info) == CountStored(m) + n
    ensures var (d', r) := Put(d, id, info, true, fault);
            && (r.Stored? <==> Taken(m, n, fault)) && (r.CountExceeded? <==> OverLimit(m, n, fault))
            && d'.db.artifact == d.db.artifact && (r.Stored? ==> Keeps(d'.db, id, info, CountStored(m) + n + 1))
            && (forall i: UpdateInfo :: r.Stored? && i.schemaUpdate == info.schemaUpdate ==>
                  CountFor(d'.db, i) == CountStored(m) + n + 1)
  {
  }

  function Said(answer: bool): RollbackSupport { if answer then Supported else NotSupported }

  /** All payloads have answered, and like each other and like what is known. */
  predicate Agree(known: RollbackSupport, answers: seq<Option<bool>>, count: nat) {
    forall n: nat :: n < count ==> Answers(answers, n, Support(known, answers, count))
  }

  function Support(known: RollbackSupport, answers: seq<Option<bool>>, count: nat): RollbackSupport {
    if known.SupportUnknown? && count > 0 && |answers| > 0 && answers[0].Some? then Said(answers[0].value) else known
  }

  lemma {:induction false} SupportCollected(
    known: RollbackSupport, answers: seq<Option<bool>>, n: nat, count: nat)
    requires n <= count && !known.SupportUnknown?
    ensures var (support, ok) := CollectSupport(known, answers, n, count);
            && (ok <==> forall i: nat :: n <= i < count ==> Answers(answers, i, known))
            && support == known
    decreases count - n
  {
    if n < count {
      if Answers(answers, n, known) { SupportCollected(known, answers, n + 1, count); }
    }
  }

  predicate Answers(answers: seq<Option<bool>>, n: nat, support: RollbackSupport) {
    n < |answers| && answers[n].Some? && Said(answers[n].value) == support
  }

  lemma SupportCollectedExactly(known: RollbackSupport, answers: seq<Option<bool>>, count: nat)
    ensures CollectSupport(known, answers, 0, count) == (Support(known, answers, count), Agree(known, answers, count))
  {
    if count > 0 {
      var v := Support(known, answers, count);
      assert Agree(known, answers, count) ==> Answers(answers, 0, v);
      if known.SupportUnknown? && |answers| > 0 && answers[0].Some? {
        SupportCollected(Said(answers[0].value), answers, 1, count);
        assert Answers(answers, 0, Said(answers[0].value));
      } else if !known.SupportUnknown? {
        SupportCollected(known, answers, 0, count);
      }
    }
  }

  /** What the download has to have brought before the first payload is stored. */
  predicate Acceptable(env: Env) {
    env.logger && !env.report.Fatal? && env.headers.Some? && env.headersMatch && env.dependsMet
  }

  /** The update after the headers: the fields of the header replace what the server said, where it has them. */
  predicate HeadersTaken(info: UpdateInfo, info': UpdateInfo, env: Env)
    requires env.headers.Some?
  {
    && info'.payloadTypes == env.headers.value
    && info'.artifactGroup == (if env.newGroup.Some? then env.newGroup.value else info.artifactGroup)
    && info'.newProvides == (if env.newProvides.Some? then env.newProvides else info.newProvides)
    && info'.clears == env.newClears
    && info' == info.(payloadTypes := info'.payloadTypes, artifactGroup := info'.artifactGroup,
                      newProvides := info'.newProvides, clears := info'.clears)
  }

  /**
   The Store state goes on exactly when everything about the Artifact is right, its two
   stores are taken and the server still wants the update. It ends in UpdateError, whose
   scripts come from the Artifact, only once the payloads are stored.
   */
  lemma StoreLeadsTo(cfg: Config, m: Machine, env: Env)
    requires Runs(m, env) && m.to.kind.Store?
    ensures var m' := Next(cfg, m, Go(env));
            var bytes := Acceptable(env) && Taken(m, 0, env.handlerFault) && env.stored;
            var agreed := bytes && Agree(m.to.info.supportsRollback, env.rollbackAnswers, |env.headers.value|);
            && m'.cur == State(Store, m'.to.info)
            && (Acceptable(env) ==>
                  HeadersTaken(m.to.info, m'.to.info.(supportsRollback := m.to.info.supportsRollback), env)
                  && (bytes ==> m'.to.info.supportsRollback
                                == Support(m.to.info.supportsRollback, env.rollbackAnswers, |env.headers.value|)))
            && (m'.to.kind.AfterStore? ==> Keeps(m'.disk.db, IdUpdateStore, m'.to.info, CountStored(m) + 2))
            && m'.disk.db.artifact ==
                 (if Acceptable(env)
                     && (OverLimit(m, 0, env.handlerFault) || (agreed && OverLimit(m, 1, env.secondFault)))
                  then Marked(m.disk.db.artifact, m.to.info, env.flagOk) else m.disk.db.artifact)
            && (m'.to.kind.AfterStore? <==> agreed && Taken(m, 1, env.secondFault) && !env.laterReport.Fatal?)
            && (m'.to.kind.UpdateError? <==>
                  bytes && !(agreed && OverLimit(m, 1, env.secondFault)) && !m'.to.kind.AfterStore?)
            && (m'.to.kind == Cleanup(false) <==>
                  env.logger && !env.report.Fatal?
                  && (env.headers.None? || (Acceptable(env) && !bytes && !OverLimit(m, 0, env.handlerFault))))
            && (m'.to.kind.AfterStore? || m'.to.kind.UpdateError? || m'.to.kind == Cleanup(false)
                || m'.to.kind == StatusReport(false, 0, 0))
            && m'.vol == m.vol.(installers := m'.vol.installers, fetchAttempts := m'.vol.fetchAttempts)
            && m'.vol.fetchAttempts ==
                 (if agreed && Taken(m, 1, env.secondFault) then 0 else m.vol.fetchAttempts)
            && m'.vol.installers ==
                 (if env.logger && !env.report.Fatal? && env.headers.Some? then |env.headers.value|
                  else m.vol.installers)
  {
    hide Runs, Next, EntryDisk, HandlePolling, HandleGate, HandleEnding, StoreHeaders, Agree, Fits, WithHeaders;
    hide Keeps;
    HandlerRuns(cfg, m, env);
    if Acceptable(env) {
      var info1 := WithHeaders(m.to.info.(payloadTypes := env.headers.value), env);
      SameSchema(m.to.info, env);
      EntryCount(m, env, info1);
      HeadersLeadTo(m, State(Store, info1), EntryDisk(m, env), m.vol.(installers := |env.headers.value|), env);
    }
  }

  /** The payload types are stored before any payload is, so that a restart can clean up after them. */
  lemma PayloadsAreRecordedFirst(cfg: Config, m: Machine, env: Env)
    requires Runs(m, env) && m.to.kind.Store? && Acceptable(env) && Taken(m, 0, env.handlerFault)
    ensures var db := Next(cfg, m, PowerLoss(env, 2)).disk.db;
            exists info :: HeadersTaken(m.to.info, info, env) && Keeps(db, IdUpdateStore, info, CountStored(m) + 1)
  {
    hide Runs, Next, EntryDisk, HandlePolling, HandleGate, HandleEnding, StoreHeaders, WithHeaders, Keeps;
    HandlerCuts(cfg, m, env);
    var info1 := WithHeaders(m.to.info.(payloadTypes := env.headers.value), env);
    SameSchema(m.to.info, env);
    EntryCount(m, env, info1);
    HeadersLeadTo(m, State(Store, info1), EntryDisk(m, env), m.vol.(installers := |env.headers.value|), env);
    var o := Handle(cfg, m.to, EntryDisk(m, env), m.vol, env);
    assert Next(cfg, m, PowerLoss(env, 2 + 0)) == Boot(o.cuts[0]);
  }

  lemma HandlerCuts(cfg: Config, m: Machine, env: Env)
    requires Runs(m, env) && m.to.kind.IsUpdateState()
    ensures var o := Handle(cfg, m.to, EntryDisk(m, env), m.vol, env);
            forall i :: 0 <= i < |o.cuts| ==> Next(cfg, m, PowerLoss(env, 2 + i)) == Boot(o.cuts[i])
  {
    hide Handle, StoreNewState;
    EntryKeepsArtifact(m, env);
  }

  lemma SameSchema(info: UpdateInfo, env: Env)
    requires env.headers.Some?
    ensures var info' := WithHeaders(info.(payloadTypes := env.headers.value), env);
            && info'.schemaUpdate == info.schemaUpdate && info'.supportsRollback == info.supportsRollback
            && HeadersTaken(info, info', env)
  {
  }

  lemma HeadersLeadTo(m: Machine, s: State, d: Disk, vol: Volatile, env: Env)
    requires s.kind.Store? && CountFor(d.db, s.info) == CountStored(m)
    ensures var o := StoreHeaders(s, d, vol, env);
            var bytes := Taken(m, 0, env.handlerFault) && env.stored;
            var agreed := bytes && Agree(s.info.supportsRollback, env.rollbackAnswers, vol.installers);
            && o.cur == State(Store, o.next.info)
            && o.next.info == (if bytes then
                  s.info.(supportsRollback := Support(s.info.supportsRollback, env.rollbackAnswers, vol.installers))
                  else s.info)
            && o.next.kind == (if OverLimit(m, 0, env.handlerFault) then StatusReport(false, 0, 0)
                               else if !bytes then Cleanup(false)
                               else if agreed && OverLimit(m, 1, env.secondFault) then StatusReport(false, 0, 0)
                               else if agreed && Taken(m, 1, env.secondFault) && !env.laterReport.Fatal? then AfterStore
                               else UpdateError)
            && o.disk.db.artifact ==
                 (if OverLimit(m, 0, env.handlerFault) || (agreed && OverLimit(m, 1, env.secondFault))
                  then Marked(d.db.artifact, s.info, env.flagOk) else d.db.artifact)
            && (o.next.kind.AfterStore? ==> Keeps(o.disk.db, IdUpdateStore, o.next.info, CountStored(m) + 2))
            && (Taken(m, 0, env.handlerFault) ==>
                  |o.cuts| > 0 && Keeps(o.cuts[0].db, IdUpdateStore, s.info, CountStored(m) + 1))
            && o.vol == (if agreed && Taken(m, 1, env.secondFault) then vol.(fetchAttempts := 0) else vol)
  {
    hide CollectSupport, Put, Agree, Support, CountStored, CountFor, Keeps;
    PutTaken(m, d, IdUpdateStore, s.info, 0, env.handlerFault);
    SupportCollectedExactly(s.info.supportsRollback, env.rollbackAnswers, vol.installers);
    var (d1, r) := Put(d, IdUpdateStore, s.info, true, env.handlerFault);
    if r.Stored? {
      var info1 := s.info.(supportsRollback := Support(s.info.supportsRollback, env.rollbackAnswers, vol.installers));
      SameCount(d1, AddFacts(d1, DownloadFacts(env)), info1);
      PutTaken(m, AddFacts(d1, DownloadFacts(env)), IdUpdateStore, info1, 1, env.secondFault);
    }
  }

  lemma SameCount(d: Disk, d': Disk, info: UpdateInfo)
    requires d'.db == d.db
    ensures CountFor(d'.db, info) == CountFor(d.db, info)
  {
  }

  /** The reboot types of the payloads that answered, up to the first that did not. */
  predicate InOrder(answers: seq<Option<RebootType>>, result: seq<RebootType>, count: nat) {
    && |result| <= count && |result| <= |answers|
    && (forall n :: 0 <= n < |result| ==> answers[n] == Some(result[n]))
    && (|result| < count && |result| < |answers| ==> answers[|result|].None?)
  }

  predicate AllAnswered(answers: seq<Option<RebootType>>, count: nat) {
    forall n :: 0 <= n < count ==> n < |answers| && answers[n].Some?
  }

  lemma {:induction false} RebootsCollected(requested: seq<RebootType>, answers: seq<Option<RebootType>>, count: nat)
    requires |requested| <= count && |requested| <= |answers|
    requires forall n :: 0 <= n < |requested| ==> answers[n] == Some(requested[n])
    ensures var (result, ok) := CollectReboots(requested, answers, |requested|, count);
            InOrder(answers, result, count) && (ok <==> AllAnswered(answers, count)) && (ok ==> |result| == count)
    decreases count - |requested|
  {
    var n := |requested|;
    if n < count && n < |answers| && answers[n].Some? {
      RebootsCollected(requested + [answers[n].value], answers, count);
    }
  }

  lemma RebootsCollectedExactly(requested: seq<RebootType>, answers: seq<Option<RebootType>>, count: nat)
    ensures var (result, ok) := CollectReboots(requested, answers, 0, count);
            && (ok <==> count == 0 || (requested == [] && AllAnswered(answers, count)))
            && (if requested != [] then result == requested else InOrder(answers, result, count))
            && (ok && requested == [] ==> |result| == count)
  {
    if requested == [] { RebootsCollected([], answers, count); }
  }

  /** A payload that wants a reboot, of any kind. */
  predicate SomeReboot(requested: seq<RebootType>, count: nat) {
    exists n :: 0 <= n < count && n < |requested| && requested[n] != RebootNone
  }

  /**
   An installation goes on only when every payload's InstallUpdate succeeds, every payload
   says whether it needs a reboot, and the answers are stored: to the reboot if one wants
   it, else to the commit. Everything else takes the update back.
   */
  lemma InstallLeadsTo(cfg: Config, m: Machine, env: Env)
    requires Runs(m, env) && m.to.kind.Install?
    ensures var m' := Next(cfg, m, Go(env));
            var (asked, count) := (m.to.info.rebootRequested, m.vol.installers);
            var installed := env.logger && !env.report.Fatal? && forall n: nat :: n < count ==> Succeeds(env, n);
            var answered := installed && (count == 0 || (asked == [] && AllAnswered(env.rebootAnswers, count)));
            var done := answered && Taken(m, 0, env.handlerFault);
            && m'.vol == m.vol
            && m'.cur == (if installed then State(Install, m'.to.info) else m.to)
            && m'.to.info == m.to.info.(rebootRequested := m'.to.info.rebootRequested)
            && (if installed && asked == [] then InOrder(env.rebootAnswers, m'.to.info.rebootRequested, count)
                else m'.to.info.rebootRequested == asked)
            && (done && asked == [] ==> |m'.to.info.rebootRequested| == count)
            && (if done then
                  && m'.to.kind == (if SomeReboot(m'.to.info.rebootRequested, count)
                                    then FetchControlMap(RebootGate, true) else FetchControlMap(CommitGate, false))
                  && m'.disk.db.artifact == m.disk.db.artifact
                  && Keeps(m'.disk.db, IdUpdateInstall, m'.to.info, CountStored(m) + 1)
                else if !env.logger then Leads(m, m', UpdateError)
                else if answered && OverLimit(m, 0, env.handlerFault) then
                  && m'.to.kind == StatusReport(false, 0, 0)
                  && m'.disk.db.artifact == Marked(m.disk.db.artifact, m.to.info, env.flagOk)
                else Falls(State(Install, m'.to.info), m, m', env.report.Fatal?, env))
  {
    hide Runs, Next, EntryDisk, HandlePolling, HandleGate, HandleEnding, HandleError, StoreInstall, CollectReboots;
    hide FallsFrom, InstallFacts, Taken, OverLimit, Keeps, CountStored, AllAnswered, InOrder, SomeReboot;
    HandlerRuns(cfg, m, env);
    var (d, count) := (EntryDisk(m, env), m.vol.installers);
    ErrorFalls(m.to, d, true, env);
    var d1 := AddFacts(d, InstallFacts(env, count));
    ErrorFalls(m.to, d1, false, env);
    var (result, ok) := CollectReboots(m.to.info.rebootRequested, env.rebootAnswers, 0, count);
    RebootsCollectedExactly(m.to.info.rebootRequested, env.rebootAnswers, count);
    var s1 := State(Install, m.to.info.(rebootRequested := result));
    ErrorFalls(s1, d1, false, env);
    EntryCount(m, env, s1.info);
    SameCount(d, d1, s1.info);
    InstallStored(m, s1, d1, m.vol, env);
  }

  lemma InstallStored(m: Machine, s: State, d: Disk, vol: Volatile, env: Env)
    requires s.kind.Install? && CountFor(d.db, s.info) == CountStored(m)
    ensures var o := StoreInstall(s, d, vol, env);
            && o.cur == s && o.vol == vol && o.next.info == s.info
            && (if Taken(m, 0, env.handlerFault) then
                  && o.next.kind == (if SomeReboot(s.info.rebootRequested, vol.installers)
                                     then FetchControlMap(RebootGate, true) else FetchControlMap(CommitGate, false))
                  && o.disk.db.artifact == d.db.artifact
                  && Keeps(o.disk.db, IdUpdateInstall, s.info, CountStored(m) + 1)
                else if OverLimit(m, 0, env.handlerFault) then
                  && o.next.kind == StatusReport(false, 0, 0)
                  && o.disk.db.artifact == Marked(d.db.artifact, s.info, env.flagOk)
                else FallsFrom(s, d.db.artifact, false, env, o.next, o.disk.db.artifact))
  {
    hide Put, CountStored, CountFor, Keeps, HandleError;
    PutTaken(m, d, IdUpdateInstall, s.info, 0, env.handlerFault);
    ErrorFalls(s, Put(d, IdUpdateInstall, s.info, true, env.handlerFault).0, false, env);
  }

  /** The first payload whose reboot does not succeed in place decides; automatic ones need the host. */
  lemma {:induction false} RebootsScanned(requested: seq<RebootType>, env: Env, n: nat, count: nat, system: bool)
    requires n <= count
    ensures var r := ScanReboots(requested, env, n, count, system);
            && (r.ScanFailed? <==> exists i :: n <= i < count && RebootsUpTo(requested, env, n, i)
                                               && FailsAlone(requested, env, i))
            && (r.ScanDone? <==> RebootsUpTo(requested, env, n, count))
            && (r.ScanDone? ==> (r.system <==> system || WantsHost(requested, n, count)))
    decreases count - n
  {
    if n < count && n < |requested| && !(requested[n].RebootCustom? && !Succeeds(env, n)) {
      RebootsScanned(requested, env, n + 1, count, system || requested[n].RebootAutomatic?);
      assert RebootsAlone(requested, env, n);
      assert forall i: nat :: n < i ==> (RebootsUpTo(requested, env, n, i) <==> RebootsUpTo(requested, env, n + 1, i));
    } else if n < count {
      assert !RebootsAlone(requested, env, n);
      assert RebootsUpTo(requested, env, n, n);
    }
  }

  predicate FailsAlone(requested: seq<RebootType>, env: Env, n: nat) {
    n < |requested| && requested[n].RebootCustom? && !Succeeds(env, n)
  }

  predicate WantsHost(requested: seq<RebootType>, a: nat, b: nat) {
    exists n :: a <= n < b && n < |requested| && requested[n].RebootAutomatic?
  }

  /** Every payload from a to b has said what it needs, and its own reboot, if it has one, succeeds. */
  predicate RebootsUpTo(requested: seq<RebootType>, env: Env, a: nat, b: nat) {
    forall n: nat :: a <= n < b ==> RebootsAlone(requested, env, n)
  }

  predicate RebootsAlone(requested: seq<RebootType>, env: Env, n: nat) {
    n < |requested| && (requested[n].RebootCustom? ==> Succeeds(env, n))
  }

  /**
   A reboot that every payload does for itself leads on to its verification; the first that
   fails is rolled back at once. The reboot of the host does not return: if it does, or if
   a payload has not said what it needs, that is an error like any other.
   */
  lemma RebootLeadsTo(cfg: Config, m: Machine, env: Env)
    requires Runs(m, env) && m.to.kind.Reboot?
    ensures var m' := Next(cfg, m, Go(env));
            var (asked, count) := (m.to.info.rebootRequested, m.vol.installers);
            && m'.vol == m.vol
            && (if env.report.Fatal? || exists n :: 0 <= n < count && RebootsUpTo(asked, env, 0, n)
                                                    && FailsAlone(asked, env, n) then Leads(m, m', Rollback)
                else if RebootsUpTo(asked, env, 0, count) && !WantsHost(asked, 0, count) then Leads(m, m', VerifyReboot)
                else Falls(m.to, m, m', false, env))
  {
    hide Runs, Next, EntryDisk, HandlePolling, HandleGate, HandleEnding, HandleError, ScanReboots;
    hide FallsFrom, RebootsUpTo, FailsAlone, WantsHost;
    HandlerRuns(cfg, m, env);
    ErrorFalls(m.to, EntryDisk(m, env), false, env);
    RebootsScanned(m.to.info.rebootRequested, env, 0, m.vol.installers, false);
  }

  /** Nothing goes on from a reboot that one payload has not verified. */
  lemma VerifyLeadsTo(cfg: Config, m: Machine, env: Env)
    requires Runs(m, env) && m.to.kind.VerifyReboot?
    ensures var m' := Next(cfg, m, Go(env));
            && m'.vol == m.vol
            && (if forall n: nat :: n < m.vol.installers ==> Succeeds(env, n) then Leads(m, m', AfterReboot)
                else Falls(m.to, m, m', false, env))
  {
    hide Runs, Next, EntryDisk, HandlePolling, HandleGate, HandleEnding, HandleError, FallsFrom, VerifyFacts;
    HandlerRuns(cfg, m, env);
    ErrorFalls(m.to, AddFacts(EntryDisk(m, env), VerifyFacts(env, m.vol.installers)), false, env);
  }

  // --------------------------------------------------------------- the commit

  /** What a send leaves behind: attempts are counted until one is accepted. */
  predicate Sent(info: UpdateInfo, info': UpdateInfo, tries: nat, reply: Reply) {
    info' == info.(reportAttempts := if reply == Landed then 0 else tries, schemaUpdate := info'.schemaUpdate)
  }

  /** The count that the commit transaction finds: under the key of the new schema, whichever is in use. */
  function CommitCount(m: Machine): nat {
    if !m.to.info.schemaUpdate then CountStored(m)
    else if m.disk.db.state.Some? then m.disk.db.state.value.info.storeCount
    else m.to.info.storeCount
  }

  predicate CommitTaken(m: Machine, env: Env) { env.handlerFault.NoFault? && CommitCount(m) < 30 }

  predicate CommitOverLimit(m: Machine, env: Env) { !env.handlerFault.Refused? && CommitCount(m) >= 30 }

  /** The artifact data after a transaction that went through, whatever its count. */
  function ArtifactAfter(cfg: Config, m: Machine, env: Env): Artifact {
    var (a, info) := (m.disk.db.artifact, m.to.info);
    var c := ArtifactCommit(info.artifactName, info.artifactGroup, info.newProvides, info.clears);
    var b := if env.handlerFault.NoFault? then CommittedArtifact(a, c, cfg.matches) else a;
    if CommitOverLimit(m, env) then Marked(b, info, env.flagOk) else b
  }

  /**
   The commit takes place exactly when the Artifact's scripts fit, the server has taken
   the last report, the first payload commits, and the database takes the transaction
   that names the device. A store that fails is not rolled back: payload 0 is committed.
   */
  lemma CommitLeadsTo(cfg: Config, m: Machine, env: Env)
    requires Runs(m, env) && m.to.kind.Commit?
    ensures var m' := Next(cfg, m, Go(env));
            var tries := m.to.kind.tries + 1;
            var sent := env.scriptsCompatible && !env.report.Transient?;
            var committed := sent && env.report.Landed? && (m.vol.installers > 0 ==> Succeeds(env, 0));
            && m'.vol == m.vol
            && (env.scriptsCompatible ==> m'.cur == State(Commit(tries), m'.to.info))
            && m'.to.info == m.to.info.(schemaUpdate := m.to.info.schemaUpdate && !committed,
                 reportAttempts := if !env.scriptsCompatible then m.to.info.reportAttempts
                                   else if env.report.Landed? then 0 else tries)
            && (m'.to.kind == PreCommitRetry(tries) <==> env.scriptsCompatible && env.report.Transient?)
            && (m'.to.kind.AfterFirstCommit? <==> committed && CommitTaken(m, env))
            && (committed && !CommitTaken(m, env) ==>
                  m'.to.kind == if CommitOverLimit(m, env) then StatusReport(false, 0, 0) else UpdateError)
            && (!env.scriptsCompatible ==> Falls(m.to, m, m', false, env))
            && (sent && !committed ==> Falls(State(Commit(tries), m'.to.info), m, m', env.report.Fatal?, env))
            && (committed ==> m'.disk.db.artifact == ArtifactAfter(cfg, m, env))
            && (m'.to.kind.AfterFirstCommit? ==> Keeps(m'.disk.db, IdUpdateCommit, m'.to.info, CommitCount(m) + 1))
  {
    hide Runs, Next, EntryDisk, HandlePolling, HandleGate, HandleEnding, HandleError, FallsFrom, StoreCommit, Keeps;
    hide ArtifactAfter, CommitTaken, CommitOverLimit;
    HandlerRuns(cfg, m, env);
    var d := EntryDisk(m, env);
    var tries := m.to.kind.tries + 1;
    var s := State(Commit(tries), m.to.info.(reportAttempts := AttemptsAfter(tries, env.report)));
    ErrorFalls(m.to, d, false, env);
    ErrorFalls(s, d, env.report.Fatal?, env);
    var fact := if m.vol.installers > 0 then Committed(0) else EmptyArtifact;
    EntryCommitCount(m, env);
    CommitStored(cfg, m, State(s.kind, s.info.(schemaUpdate := false)), AddFacts(d, {fact}), m.vol, env);
  }

  lemma EntryCommitCount(m: Machine, env: Env)
    requires Runs(m, env) && m.to.kind.Commit?
    ensures var db := EntryDisk(m, env).db;
            CommitCount(m) == if db.state.Some? then db.state.value.info.storeCount else m.to.info.storeCount
  {
  }

  lemma CommitStored(cfg: Config, m: Machine, s: State, d: Disk, vol: Volatile, env: Env)
    requires s.kind.Commit? && d.db.artifact == m.disk.db.artifact
    requires s.info == m.to.info.(schemaUpdate := false, reportAttempts := s.info.reportAttempts)
    requires CommitCount(m) == if d.db.state.Some? then d.db.state.value.info.storeCount else m.to.info.storeCount
    ensures var o := StoreCommit(cfg, s, d, vol, env);
            && o.cur == s && o.vol == vol && o.next.info == s.info
            && o.next.kind == (if CommitTaken(m, env) then AfterFirstCommit
                               else if CommitOverLimit(m, env) then StatusReport(false, 0, 0) else UpdateError)
            && o.disk.db.artifact == ArtifactAfter(cfg, m, env)
            && (CommitTaken(m, env) ==> Keeps(o.disk.db, IdUpdateCommit, s.info, CommitCount(m) + 1))
  {
    hide CommittedArtifact, CommitCount;
  }

  /** The commit is tried again until the sends are used up. */
  lemma CommitRetryLeadsTo(cfg: Config, m: Machine, env: Env)
    requires Runs(m, env) && m.to.kind.PreCommitRetry?
    ensures var m' := Next(cfg, m, Go(env));
            && m'.vol == m.vol
            && (if m.to.kind.tries < MaxSends(cfg) then Leads(m, m', Commit(m.to.kind.tries))
                else Falls(State(Commit(m.to.kind.tries), m.to.info), m, m', false, env))
  {
    hide Runs, Next, EntryDisk, HandlePolling, HandleGate, HandleEnding, HandleError, FallsFrom, MaxSends;
    HandlerRuns(cfg, m, env);
    ErrorFalls(State(Commit(m.to.kind.tries), m.to.info), EntryDisk(m, env), false, env);
  }

  /** The other payloads are committed; a failure is past undoing, and marks the name. */
  lemma FirstCommitLeadsTo(cfg: Config, m: Machine, env: Env)
    requires Runs(m, env) && m.to.kind.AfterFirstCommit?
    ensures var m' := Next(cfg, m, Go(env));
            && m'.vol == m.vol
            && (if forall n: nat :: 1 <= n < m.vol.installers ==> Succeeds(env, n) then Leads(m, m', AfterCommit)
                else Falls(m.to, m, m', false, env) && m'.to.kind == Cleanup(false))
  {
    hide Runs, Next, EntryDisk, HandlePolling, HandleGate, HandleEnding, HandleError, CommitFacts;
    HandlerRuns(cfg, m, env);
    ErrorFalls(m.to, AddFacts(EntryDisk(m, env), CommitFacts(env, 1, m.vol.installers)), false, env);
  }

  // -------------------------------------------------------------- the way back

  /** A list of reboot types, completed by the payloads that had not answered yet, up to the first that fails. */
  predicate Completed(requested: seq<RebootType>, answers: seq<Option<RebootType>>, result: seq<RebootType>,
                      count: nat)
  {
    && requested <= result
    && (|result| > |requested| ==> |result| <= count && |result| <= |answers|)
    && (forall n :: |requested| <= n < |result| ==> answers[n] == Some(result[n]))
    && (|result| < count && |result| < |answers| ==> answers[|result|].None?)
  }

  lemma {:induction false} RebootsQueried(
    requested: seq<RebootType>, answers: seq<Option<RebootType>>, n: nat, count: nat)
    requires n <= count
    ensures var result := QueryReboots(requested, answers, n, count);
            if n <= |requested| then Completed(requested, answers, result, count) else result == requested
    decreases count - n
  {
    if n < count {
      if n == |requested| && n < |answers| && answers[n].Some? {
        RebootsQueried(requested + [answers[n].value], answers, n + 1, count);
      } else {
        RebootsQueried(requested, answers, n + 1, count);
      }
    }
  }

  /**
   A rollback of every payload is followed by a reboot if any payload, asked late or
   early, wants one; a rollback that fails marks the name and ends in UpdateError.
   */
  lemma RollbackLeadsTo(cfg: Config, m: Machine, env: Env)
    requires Runs(m, env) && m.to.kind.Rollback?
    ensures var m' := Next(cfg, m, Go(env));
            var (asked, count) := (m.to.info.rebootRequested, m.vol.installers);
            && m'.vol == m.vol
            && (if forall n: nat :: n < count ==> Succeeds(env, n) then
                  && m'.to.kind == (if SomeReboot(m'.to.info.rebootRequested, count) then RollbackReboot
                                    else UpdateError)
                  && Completed(asked, env.rebootAnswers, m'.to.info.rebootRequested, count)
                  && m'.to.info == m.to.info.(rebootRequested := m'.to.info.rebootRequested)
                  && m'.cur == State(Rollback, m'.to.info) && m'.disk.db.artifact == m.disk.db.artifact
                else Falls(m.to, m, m', true, env))
  {
    hide Runs, Next, EntryDisk, HandlePolling, HandleGate, HandleForward, HandleError, QueryReboots, FallsFrom;
    hide Completed;
    HandlerRuns(cfg, m, env);
    ErrorFalls(m.to, EntryDisk(m, env), true, env);
    RebootsQueried(m.to.info.rebootRequested, env.rebootAnswers, 0, m.vol.installers);
  }

  /** The way back is not left before every payload has verified it: until then it reboots again. */
  lemma VerifyRollbackLeadsTo(cfg: Config, m: Machine, env: Env)
    requires Runs(m, env) && m.to.kind.VerifyRollbackReboot?
    ensures var m' := Next(cfg, m, Go(env));
            && m'.vol == m.vol
            && Leads(m, m', if forall n: nat :: n < m.vol.installers ==> Succeeds(env, n) then AfterRollbackReboot
                            else RollbackReboot)
  {
    hide Runs, Next, EntryDisk, HandlePolling, HandleGate, HandleForward;
    HandlerRuns(cfg, m, env);
  }

  /** A success is reported only from a clean success; the pauses of this deployment are forgotten. */
  lemma CleanupLeadsTo(cfg: Config, m: Machine, env: Env)
    requires Runs(m, env) && m.to.kind.Cleanup?
    ensures var m' := Next(cfg, m, Go(env));
            && m'.vol == m.vol.(pauseReported := {})
            && var clean := forall n: nat :: n < m.vol.installers ==> Succeeds(env, n);
               Leads(m, m', StatusReport(m.to.kind.success && clean, 0, 0))
  {
    hide Runs, Next, EntryDisk, HandlePolling, HandleGate, HandleForward;
    HandlerRuns(cfg, m, env);
  }

  /**
   A report that the server takes ends the deployment, but a failure only once its logs
   are taken too; one that it refuses for good ends it at once; any other is sent again.
   */
  lemma ReportLeadsTo(cfg: Config, m: Machine, env: Env)
    requires Runs(m, env) && m.to.kind.StatusReport?
    ensures var m' := Next(cfg, m, Go(env));
            var (success, tries) := (m.to.kind.success, m.to.kind.tries + 1);
            var logging := env.report.Landed? && !success;
            var logTries := m.to.kind.logTries + if logging && !env.logs.Fatal? then 1 else 0;
            && m'.cur == State(StatusReport(success, tries, logTries),
                               m.to.info.(reportAttempts := if env.report.Landed? then 0 else tries))
            && m'.to == (if env.report.Transient? then
                           State(StatusReportRetry(success, tries, tries, logTries), m'.cur.info)
                         else if logging && env.logs.Transient? then
                           State(StatusReportRetry(success, logTries, tries, logTries), m'.cur.info)
                         else Polling(Idle))
            && m'.vol == m.vol.(failedReports := if env.report.Landed? then 0 else m.vol.failedReports + 1)
            && m'.disk.db.artifact == m.disk.db.artifact
  {
    hide Runs, Next, EntryDisk, HandlePolling, HandleGate, HandleForward;
    HandlerRuns(cfg, m, env);
  }

  /** And given up once the sends are used up. */
  lemma ReportRetryLeadsTo(cfg: Config, m: Machine, env: Env)
    requires Runs(m, env) && m.to.kind.StatusReportRetry?
    ensures var m' := Next(cfg, m, Go(env));
            && m'.vol == m.vol && m'.cur == m.to && m'.disk.db.artifact == m.disk.db.artifact
            && m'.to == (if m.to.kind.spent < MaxSends(cfg) then
                           State(StatusReport(m.to.kind.success, m.to.kind.sends, m.to.kind.logSends), m.to.info)
                         else Polling(Idle))
  {
    hide Runs, Next, EntryDisk, HandlePolling, HandleGate, HandleForward, MaxSends;
    HandlerRuns(cfg, m, env);
  }

  // ------------------------------------------------------ between deployments

  /** An offered update starts from what the server says, and from nothing else. */
  predicate Begins(u: UpdateInfo, info: UpdateInfo) {
    && info.id == u.id && info.artifactName == u.artifactName && info.artifactGroup == u.artifactGroup
    && info.newProvides == u.newProvides && info.clears == u.clears && info.payloadTypes == u.payloadTypes
    && info.rebootRequested == [] && info.supportsRollback == SupportUnknown
    && info.storeCount == 0 && !info.schemaUpdate && info.reportAttempts == 0
  }

  /** From a fatal error only a restart leads on. */
  lemma FatalErrorStays(cfg: Config, m: Machine, env: Env)
    requires m.to.kind == Error(true)
    ensures Next(cfg, m, Go(env)) == m
  {
  }

  /** Polling: the record of the last deployment goes before the server is asked for the next one. */
  lemma PollingLeadsTo(cfg: Config, m: Machine, env: Env)
    requires Runs(m, env) && m.to.kind.IsPolling()
    ensures var m' := Next(cfg, m, Go(env));
            && m'.cur == m.to && m'.vol == m.vol.(failedReports := m'.vol.failedReports)
            && m'.disk.db == (if m.to.kind.Idle? && env.removeOk then m.disk.db.(state := None) else m.disk.db)
            && (match m.to.kind
                case Idle => m'.to == Polling(CheckWait)
                case CheckWait => m'.to == Polling(UpdateCheck)
                case Error(_) => m'.to == Polling(Idle)
                case UpdateCheck =>
                  if env.offer.NoOffer? then m'.to == Polling(CheckWait)
                  else if env.offer.CheckFailed? then m'.to == Polling(Error(false))
                  else
                    && m'.to.kind == (if env.offer.Offered? then Fetch else StatusReport(false, 0, 0))
                    && Begins(env.offer.update, m'.to.info) && m'.vol.failedReports == 0
                    && m'.disk.history
                       == History(m.disk.db.artifact.name, env.offer.update.artifactName, {}, 0, false, None)
                case _ => true)
  {
    hide Next, HandleForward, HandleGate, HandleEnding, StoreNewState, LeavePasses, EnterPasses;
    HandlerRuns(cfg, m, env);
    EntryKeepsArtifact(m, env);
  }

  // -------------------------------------------------------------- power losses

  /** Most states write nothing but themselves: a power loss finds them stored, or not yet. */
  lemma PowerLossElsewhere(cfg: Config, m: Machine, env: Env, cut: nat)
    requires Runs(m, env) && !m.to.kind.Store? && !m.to.kind.Install? && !m.to.kind.Commit?
    ensures Next(cfg, m, PowerLoss(env, cut))
            == Boot(if cut == 1 && !Waits(m.to.kind) then EntryDisk(m, env) else m.disk)
  {
    hide Handle, HandlePolling, HandleGate, HandleEnding, HandleForward, StoreNewState;
    EntryKeepsArtifact(m, env);
    NoCutsElsewhere(cfg, m.to, EntryDisk(m, env), m.vol, env);
  }

  lemma NoCutsElsewhere(cfg: Config, s: State, d: Disk, vol: Volatile, env: Env)
    requires !s.kind.Init? && !s.kind.Store? && !s.kind.Install? && !s.kind.Commit?
    ensures Handle(cfg, s, d, vol, env).cuts == []
  {
    hide HandleError, GivesUp, MaxSends, QueryReboots, ScanReboots, WantsReboot, RemoveRecord;
  }

  /** The answers about reboots are on record before the installation leads anywhere. */
  lemma AnswersAreRecordedFirst(cfg: Config, m: Machine, env: Env)
    requires Runs(m, env) && m.to.kind.Install? && Next(cfg, m, Go(env)).to.kind.IsGate()
    ensures Next(cfg, m, PowerLoss(env, 2)).disk == Next(cfg, m, Go(env)).disk
  {
    hide Runs, Next, EntryDisk, HandleGate, HandleEnding, HandlePolling, HandleInstall;
    HandlerRuns(cfg, m, env);
    HandlerCuts(cfg, m, env);
    var o := Handle(cfg, m.to, EntryDisk(m, env), m.vol, env);
    InstallCuts(m.to, EntryDisk(m, env), m.vol, env);
    assert Next(cfg, m, PowerLoss(env, 2 + 0)) == Boot(o.cuts[0]);
  }

  lemma InstallCuts(s: State, d: Disk, vol: Volatile, env: Env)
    requires s.kind.Install?
    ensures var o := HandleInstall(s, d, vol, env); o.next.kind.IsGate() ==> o.cuts == [o.disk]
  {
    hide HandleError, CollectReboots, InstallFacts, StoreInstall;
    var d1 := AddFacts(d, InstallFacts(env, vol.installers));
    var (requested, ok) := CollectReboots(s.info.rebootRequested, env.rebootAnswers, 0, vol.installers);
    var s1 := State(Install, s.info.(rebootRequested := requested));
    ErrorIsNoGate(s, d, true, env);
    ErrorIsNoGate(s, d1, false, env);
    ErrorIsNoGate(s1, d1, false, env);
    StoredCuts(s1, d1, vol, env);
  }

  lemma StoredCuts(s: State, d: Disk, vol: Volatile, env: Env)
    ensures var o := StoreInstall(s, d, vol, env); o.next.kind.IsGate() ==> o.cuts == [o.disk]
  {
    hide HandleError, Put, WantsReboot, SetBroken;
    ErrorIsNoGate(s, Put(d, IdUpdateInstall, s.info, true, env.handlerFault).0, false, env);
  }

  lemma ErrorIsNoGate(s: State, d: Disk, fatal: bool, env: Env)
    ensures !HandleError(s, d, fatal, env).1.kind.IsGate() && !HandleError(s, d, fatal, env).1.kind.AfterFirstCommit?
  {
  }

  /** Before the commit transaction nothing of it is there, and after it all of it. */
  lemma CommitIsOneWrite(cfg: Config, m: Machine, env: Env)
    requires Runs(m, env) && m.to.kind.Commit? && Next(cfg, m, Go(env)).to.kind.AfterFirstCommit?
    ensures Next(cfg, m, PowerLoss(env, 2)).disk.db == Next(cfg, m, PowerLoss(env, 1)).disk.db
    ensures Next(cfg, m, PowerLoss(env, 3)).disk.db == Next(cfg, m, Go(env)).disk.db
  {
    hide Runs, Next, EntryDisk, HandleGate, HandleEnding, HandlePolling, HandleCommit;
    HandlerRuns(cfg, m, env);
    HandlerCuts(cfg, m, env);
    EntryCut(cfg, m, env);
    var o := Handle(cfg, m.to, EntryDisk(m, env), m.vol, env);
    CommitCuts(cfg, m.to, EntryDisk(m, env), m.vol, env);
    assert Next(cfg, m, PowerLoss(env, 2 + 0)) == Boot(o.cuts[0]);
    assert Next(cfg, m, PowerLoss(env, 2 + 1)) == Boot(o.cuts[1]);
  }

  lemma CommitCuts(cfg: Config, s: State, d: Disk, vol: Volatile, env: Env)
    requires s.kind.Commit?
    ensures var o := HandleCommit(cfg, s, d, vol, env);
            o.next.kind.AfterFirstCommit? ==> |o.cuts| == 2 && o.cuts[0].db == d.db && o.cuts[1].db == o.disk.db
  {
    hide HandleError, StoreStateDataAndTransaction;
    forall d: Disk, fatal: bool, s: State { ErrorIsNoGate(s, d, fatal, env); }
  }

  lemma EntryCut(cfg: Config, m: Machine, env: Env)
    requires Runs(m, env) && m.to.kind.IsUpdateState()
    ensures Next(cfg, m, PowerLoss(env, 1)) == Boot(EntryDisk(m, env))
  {
    hide Handle, StoreNewState;
    EntryKeepsArtifact(m, env);
  }
}
