/**
 Two deployments walked through from the first boot of a device on: one without
 payloads, up to its last Cleanup, and one with a root filesystem whose new system
 cannot be verified, up to its rollback reboot. They show that the machines from which
 the results about misreported and about endless deployments start are reached.
 */
module Walks {
  import opened Wrappers
  import opened StateData
  import opened Datastore
  import opened UpdateStates
  import opened Daemon
  import opened Starts
  import opened Invariants
  import opened Outcomes
  import opened Termination
  import opened Endless

  predicate ScriptsSucceed(env: Env) { env.enter && env.leave && env.errorScripts }

  /** The server offers u with these payloads; everything succeeds, and each payload asks for a reboot. */
  function Serving(u: UpdateInfo, types: seq<string>): Env {
    Calm().(offer := Offered(u), headers := Some(types),
            rollbackAnswers := seq(|types|, _ => Some(true)),
            rebootAnswers := seq(|types|, _ => Some(RebootAutomatic)),
            results := seq(|types|, _ => true))
  }

  lemma Served(u: UpdateInfo, types: seq<string>)
    ensures var e := Serving(u, types);
            && StoreWorks(e) && ScriptsSucceed(e) && e.logger && e.report.Landed? && e.laterReport.Landed?
            && e.offer == Offered(u) && e.fetched && e.headers == Some(types) && e.headersMatch && e.dependsMet
            && e.newGroup.None? && e.newProvides.None? && e.newClears.None? && e.stored
            && e.rollbackAnswers == seq(|types|, _ => Some(true)) && e.results == seq(|types|, _ => true)
            && e.rebootAnswers == seq(|types|, _ => Some(RebootAutomatic))
            && e.scriptsCompatible && e.restored && !e.hasMap && e.action.Continue?
  {
  }

  /** As many steps as this, all with the same answers. */
  function Steps(env: Env, n: nat): seq<Choice> { seq(n, _ => Go(env)) }

  lemma {:induction false} OneStep(cfg: Config, m: Machine, env: Env, n: nat)
    requires n > 0
    ensures RunAll(cfg, m, Steps(env, n)) == RunAll(cfg, Next(cfg, m, Go(env)), Steps(env, n - 1))
  {
    hide Next;
    assert Steps(env, n)[0] == Go(env) && Steps(env, n)[1..] == Steps(env, n - 1);
  }

  lemma {:induction false} RunOn(cfg: Config, m: Machine, a: seq<Choice>, b: seq<Choice>)
    ensures RunAll(cfg, m, a + b) == RunAll(cfg, RunAll(cfg, m, a), b)
    decreases |a|
  {
    hide Next;
    if a == [] {
      assert a + b == b;
    } else {
      assert (a + b)[0] == a[0] && (a + b)[1..] == a[1..] + b;
      RunOn(cfg, Next(cfg, m, a[0]), a[1..], b);
    }
  }

  // ------------------------------------------------------------- a single step

  /** With scripts that succeed and a working database, a step is the handler on the stored disk. */
  lemma StepHandles(cfg: Config, m: Machine, env: Env)
    requires ScriptsSucceed(env) && !m.to.kind.Init? && !Exited(m)
    requires m.to.kind.IsUpdateState() ==> StoreNewState(Left(m), env).1.Stored?
    ensures var d := if m.to.kind.IsUpdateState() then StoreNewState(Left(m), env).0 else Left(m).disk;
            var o := Handle(cfg, m.to, d, m.vol, env);
            Next(cfg, m, Go(env)) == Machine(o.cur, o.next, o.disk, o.vol)
  {
    hide StoreNewState, Handle;
  }

  /** The handlers that the walks need. */
  lemma Dispatch(cfg: Config, s: State, d: Disk, vol: Volatile, env: Env)
    ensures var o := Handle(cfg, s, d, vol, env);
            && (s.kind.Fetch? ==> o == HandleFetch(s, d, vol, env))
            && (s.kind.Store? ==> o == HandleStore(s, d, vol, env))
            && (s.kind.AfterStore? ==> o == Goto(s, FetchControlMap(InstallGate, false), d, vol))
            && (s.kind.FetchControlMap? ==> o == HandleFetchControlMap(s, d, vol, env))
            && (s.kind.ControlMap? ==> o == HandleControlMap(s, d, vol, env))
            && (s.kind.Install? ==> o == HandleInstall(s, d, vol, env))
            && (s.kind.VerifyReboot? ==> o == HandleVerifyReboot(s, d, vol, env))
            && (s.kind.Commit? ==> o == HandleCommit(cfg, s, d, vol, env))
            && (s.kind.AfterFirstCommit? ==> o == HandleAfterFirstCommit(s, d, vol, env))
            && (s.kind.AfterCommit? ==> o == Goto(s, Cleanup(true), d, vol))
            && (s.kind.Rollback? ==> o == HandleRollback(s, d, vol, env))
  {
    hide HandleFetch, HandleStore, HandleFetchControlMap, HandleControlMap, HandleInstall, HandleVerifyReboot;
    hide HandleCommit, HandleAfterFirstCommit, HandleRollback, HandleCleanup, HandleStatusReport, HandlePolling;
  }

  /** The record on this disk, if there is one, is of the new schema and has this count. */
  predicate Counts(d: Disk, count: nat) {
    !OldState(d.db) && (if d.db.state.Some? then Recalled(d.db).Some? && Count(d.db) == count else count == 0)
  }

  lemma Entry(m: Machine, env: Env, count: nat)
    requires env.storeFault.NoFault? && Counts(m.disk, count) && count < MAX_STORE_COUNT
    requires m.to.kind.IsUpdateState() && !m.to.info.schemaUpdate
    requires m.disk.db.state.None? ==> m.to.info.storeCount == 0
    ensures var (d, r) := StoreNewState(m, env);
            && r.Stored? && d.db.state.Some?
            && Counts(d, count + (if Counted(m.cur.kind, m.to.kind) then 1 else 0))
            && d.db.state.value.name == m.to.kind.Id() && d.db.artifact == m.disk.db.artifact
            && d.db.state.value.info.payloadTypes == m.to.info.payloadTypes
            && d.db.state.value.info.artifactName == m.to.info.artifactName
            && d.history.newName == m.disk.history.newName
  {
  }

  /** A store inside a handler. */
  lemma Stores(d: Disk, name: StateId, info: UpdateInfo, count: nat)
    requires Counts(d, count) && count < MAX_STORE_COUNT && d.db.state.Some? && !info.schemaUpdate
    ensures var (d', r) := Put(d, name, info, true, NoFault);
            && r.Stored? && d'.db.state.Some? && Counts(d', count + 1) && d'.history == d.history
            && d'.db.state.value.name == name && d'.db.artifact == d.db.artifact
            && d'.db.state.value.info.payloadTypes == info.payloadTypes
            && d'.db.state.value.info.artifactName == info.artifactName
  {
  }

  /** The deployment of u is in progress, with these payloads and this count on record. */
  predicate On(m: Machine, u: UpdateInfo, types: seq<string>, count: nat) {
    && Counts(m.disk, count) && m.disk.db.state.Some? && m.disk.history.newName == u.artifactName
    && m.to.info.artifactName == u.artifactName && !m.to.info.schemaUpdate
    && m.to.info.payloadTypes == types && m.vol.installers == |types|
  }

  /** At most one payload; what it answers is what has been collected. */
  predicate OnAnswered(m: Machine, u: UpdateInfo, types: seq<string>, count: nat) {
    && On(m, u, types, count) && |types| <= 1
    && (types != [] ==> m.to.info.supportsRollback.Supported?)
  }

  // ------------------------------------------------------ up to the installation

  /** A device that has no deployment on record. */
  predicate Unused(d: Disk) { d.db.state.None? && d.db.uncommitted.None? }

  lemma PollingSteps(cfg: Config, d: Disk, u: UpdateInfo, types: seq<string>)
    requires Unused(d)
    ensures var m := RunAll(cfg, Boot(d), Steps(Serving(u, types), 4));
            && m.cur.kind.UpdateCheck? && m.to == State(Fetch, Fresh(u))
            && Unused(m.disk) && m.disk.history.newName == u.artifactName
  {
    hide Next, Steps;
    var env := Serving(u, types);
    var m0 := Boot(d);
    OneStep(cfg, m0, env, 4);
    FirstStart(cfg, d, env);
    var m1 := Next(cfg, m0, Go(env));
    OneStep(cfg, m1, env, 3);
    PollingStep(cfg, m1, env, u);
    var m2 := Next(cfg, m1, Go(env));
    OneStep(cfg, m2, env, 2);
    PollingStep(cfg, m2, env, u);
    var m3 := Next(cfg, m2, Go(env));
    OneStep(cfg, m3, env, 1);
    PollingStep(cfg, m3, env, u);
    NoSteps(cfg, Next(cfg, m3, Go(env)), env);
  }

  lemma NoSteps(cfg: Config, m: Machine, env: Env)
    ensures RunAll(cfg, m, Steps(env, 0)) == m
  {
  }

  lemma FirstStart(cfg: Config, d: Disk, env: Env)
    requires Unused(d) && StoreWorks(env)
    ensures var m := Next(cfg, Boot(d), Go(env)); m.cur.kind.Init? && m.to.kind.Idle? && Unused(m.disk)
  {
    hide Bootstrap, TransitionState, HandleInit;
    var m := Started(Boot(d), env);
    StaysUnused(d, env);
    BootEntersDirectly(cfg, m, env);
    EntersWhatItHandles(cfg, m, env);
    NothingToResume(m.disk, env);
  }

  lemma StaysUnused(d: Disk, env: Env)
    requires Unused(d) && StoreWorks(env)
    ensures Unused(Bootstrap(d, env))
  {
    hide LoadProvides;
  }

  lemma NothingToResume(d: Disk, env: Env)
    requires Unused(d) && StoreWorks(env)
    ensures HandleInit(Polling(Init), d, Boot(d).vol, env) == Done(Polling(Init), Polling(Idle), d, Boot(d).vol)
  {
  }

  lemma PollingStep(cfg: Config, m: Machine, env: Env, u: UpdateInfo)
    requires StoreWorks(env) && ScriptsSucceed(env) && env.offer == Offered(u) && Unused(m.disk)
    requires m.to.kind.Idle? || m.to.kind.CheckWait? || m.to.kind.UpdateCheck?
    requires !m.cur.kind.AfterCommit?
    ensures var m' := Next(cfg, m, Go(env));
            && m'.cur.kind == m.to.kind && Unused(m'.disk)
            && (m.to.kind.Idle? ==> m'.to.kind.CheckWait?)
            && (m.to.kind.CheckWait? ==> m'.to.kind.UpdateCheck?)
            && (m.to.kind.UpdateCheck? ==> m'.to == State(Fetch, Fresh(u)) && m'.disk.history.newName == u.artifactName)
  {
    hide HandleInit, HandleGate, HandleEnding, HandleForward;
    StepHandles(cfg, m, env);
  }

  lemma FetchStep(cfg: Config, m: Machine, u: UpdateInfo, types: seq<string>)
    requires m.cur.kind.UpdateCheck? && m.to == State(Fetch, Fresh(u)) && Unused(m.disk)
    requires m.disk.history.newName == u.artifactName
    ensures var m' := Next(cfg, m, Go(Serving(u, types)));
            && m'.cur.kind.Fetch? && m'.to == State(Store, Fresh(u))
            && Counts(m'.disk, 0) && m'.disk.db.state.Some? && m'.disk.history.newName == u.artifactName
  {
    hide StoreNewState, Counts, Serving, Handle;
    var env := Serving(u, types);
    Served(u, types);
    NothingCounts(m.disk);
    LeftIsSame(m);
    Entry(m, env, 0);
    StepHandles(cfg, m, env);
    Dispatch(cfg, m.to, StoreNewState(m, env).0, m.vol, env);
  }

  lemma NothingCounts(d: Disk)
    requires Unused(d)
    ensures Counts(d, 0) && !OldState(d.db)
  {
  }

  lemma LeftIsSame(m: Machine)
    requires !m.cur.kind.AfterCommit?
    ensures Left(m) == m
  {
  }

  lemma StoreStep(cfg: Config, m: Machine, u: UpdateInfo, types: seq<string>)
    requires m.cur.kind.Fetch? && m.to == State(Store, Fresh(u)) && |types| <= 1
    requires Counts(m.disk, 0) && m.disk.db.state.Some? && m.disk.history.newName == u.artifactName
    ensures var m' := Next(cfg, m, Go(Serving(u, types)));
            && m'.cur.kind.Store? && m'.to.kind.AfterStore? && OnAnswered(m', u, types, 3)
            && m'.to.info.rebootRequested == []
  {
    hide StoreNewState, Counts, HandleStore, Serving, Handle;
    var env := Serving(u, types);
    Served(u, types);
    LeftIsSame(m);
    Entry(m, env, 0);
    StepHandles(cfg, m, env);
    var d := StoreNewState(m, env).0;
    Dispatch(cfg, m.to, d, m.vol, env);
    StoreHandled(m.to, d, m.vol, u, types);
  }

  lemma StoreHandled(s: State, d: Disk, vol: Volatile, u: UpdateInfo, types: seq<string>)
    requires s == State(Store, Fresh(u)) && |types| <= 1 && Counts(d, 1) && d.db.state.Some?
    ensures var o := HandleStore(s, d, vol, Serving(u, types));
            && o.cur.kind.Store? && o.next.kind.AfterStore? && o.vol.installers == |types|
            && Counts(o.disk, 3) && o.disk.db.state.Some? && o.disk.history.newName == d.history.newName
            && o.next.info.artifactName == u.artifactName && !o.next.info.schemaUpdate
            && o.next.info.payloadTypes == types && o.next.info.rebootRequested == []
            && (types != [] ==> o.next.info.supportsRollback.Supported?)
  {
    hide Counts, Put, CollectSupport, Serving;
    var env := Serving(u, types);
    Served(u, types);
    var info := WithHeaders(s.info.(payloadTypes := types), env);
    Stores(d, IdUpdateStore, info, 1);
    var d1 := Put(d, IdUpdateStore, info, true, NoFault).0;
    FactsCount(d1, DownloadFacts(env), 2);
    SupportAgrees(types);
    Stores(AddFacts(d1, DownloadFacts(env)), IdUpdateStore,
           info.(supportsRollback := if types == [] then SupportUnknown else Supported), 2);
  }

  lemma SupportAgrees(types: seq<string>)
    requires |types| <= 1
    ensures CollectSupport(SupportUnknown, seq(|types|, _ => Some(true)), 0, |types|)
            == (if types == [] then SupportUnknown else Supported, true)
  {
  }

  lemma AfterStoreStep(cfg: Config, m: Machine, u: UpdateInfo, types: seq<string>)
    requires m.cur.kind.Store? && m.to.kind.AfterStore? && OnAnswered(m, u, types, 3)
    ensures var m' := Next(cfg, m, Go(Serving(u, types)));
            && m'.cur.kind.AfterStore? && m'.to == State(FetchControlMap(InstallGate, false), m.to.info)
            && OnAnswered(m', u, types, 4)
  {
    hide StoreNewState, Counts, Serving, Handle;
    Served(u, types);
    LeftIsSame(m);
    Entry(m, Serving(u, types), 3);
    StepHandles(cfg, m, Serving(u, types));
    Dispatch(cfg, m.to, StoreNewState(m, Serving(u, types)).0, m.vol, Serving(u, types));
  }

  /** No map has anything to say. */
  lemma GateSteps(cfg: Config, m: Machine, u: UpdateInfo, types: seq<string>, count: nat)
    requires m.to.kind.FetchControlMap? && OnAnswered(m, u, types, count) && !m.cur.kind.AfterCommit?
    ensures var env := Serving(u, types);
            var m' := Next(cfg, Next(cfg, m, Go(env)), Go(env));
            && m'.cur.kind.ControlMap? && m'.to == State(Wrapped(m.to.kind.gate), m.to.info)
            && OnAnswered(m', u, types, count)
  {
    hide StoreNewState, Serving, Handle;
    var env := Serving(u, types);
    Served(u, types);
    StepHandles(cfg, m, env);
    Dispatch(cfg, m.to, m.disk, m.vol, env);
    LeftIsSame(m);
    var m1 := Next(cfg, m, Go(env));
    assert m1 == Machine(m.to, State(ControlMap(m.to.kind.gate, m.to.kind.pauseState), m.to.info), m.disk,
                         m.vol.(mapAttempts := 0));
    StepHandles(cfg, m1, env);
    Dispatch(cfg, m1.to, m1.disk, m1.vol, env);
    LeftIsSame(m1);
  }

  /** Every payload asks for a reboot. */
  function AfterInstall(types: seq<string>): Kind {
    if types == [] then FetchControlMap(CommitGate, false) else FetchControlMap(RebootGate, true)
  }

  lemma InstallStep(cfg: Config, m: Machine, u: UpdateInfo, types: seq<string>)
    requires m.cur.kind.ControlMap? && m.to.kind.Install? && OnAnswered(m, u, types, 4)
    requires m.to.info.rebootRequested == []
    ensures var m' := Next(cfg, m, Go(Serving(u, types)));
            && m'.cur.kind.Install? && OnAnswered(m', u, types, 5)
            && m'.to.info.rebootRequested == seq(|types|, _ => RebootAutomatic)
            && m'.to.kind == AfterInstall(types)
  {
    hide StoreNewState, Counts, Put, HandleInstall, Serving, Handle, InstallFacts;
    var env := Serving(u, types);
    Served(u, types);
    LeftIsSame(m);
    Entry(m, env, 4);
    StepHandles(cfg, m, env);
    var d := StoreNewState(m, env).0;
    Dispatch(cfg, m.to, d, m.vol, env);
    InstallHandled(m.to, d, m.vol, u, types);
    var facts := InstallFacts(env, |types|);
    FactsCount(d, facts, 4);
    Stores(AddFacts(d, facts), IdUpdateInstall, m.to.info.(rebootRequested := seq(|types|, _ => RebootAutomatic)), 4);
  }

  lemma InstallHandled(s: State, d: Disk, vol: Volatile, u: UpdateInfo, types: seq<string>)
    requires s.kind.Install? && s.info.rebootRequested == [] && vol.installers == |types| <= 1
    requires Counts(d, 4) && d.db.state.Some? && !s.info.schemaUpdate
    ensures var info := s.info.(rebootRequested := seq(|types|, _ => RebootAutomatic));
            var d0 := AddFacts(d, InstallFacts(Serving(u, types), |types|));
            var d1 := Put(d0, IdUpdateInstall, info, true, NoFault).0;
            HandleInstall(s, d, vol, Serving(u, types))
            == Outcome(State(Install, info), State(AfterInstall(types), info), d1, vol, [d1])
  {
    hide Put, CollectReboots, Counts, Serving, InstallFacts;
    Served(u, types);
    assert AllSucceed(Serving(u, types), |types|);
    RebootsAgree(types);
    var d0 := AddFacts(d, InstallFacts(Serving(u, types), |types|));
    FactsCount(d, InstallFacts(Serving(u, types), |types|), 4);
    Stores(d0, IdUpdateInstall, s.info.(rebootRequested := seq(|types|, _ => RebootAutomatic)), 4);
    assert types != [] ==> WantsReboot(seq(|types|, _ => RebootAutomatic), 1) by { RebootIsWanted(); }
  }

  lemma RebootIsWanted()
    ensures WantsReboot(seq(1, _ => RebootAutomatic), 1)
  {
    var requested := seq(1, _ => RebootAutomatic);
    assert 0 < |requested| && !requested[0].RebootNone?;
  }

  lemma RebootsAgree(types: seq<string>)
    requires |types| <= 1
    ensures CollectReboots([], seq(|types|, _ => Some(RebootAutomatic)), 0, |types|)
            == (seq(|types|, _ => RebootAutomatic), true)
  {
    var answers := seq(|types|, _ => Some(RebootAutomatic));
    if types == [] {
      assert seq(|types|, _ => RebootAutomatic) == [];
    } else {
      assert seq(|types|, _ => RebootAutomatic) == [RebootAutomatic] == [] + [RebootAutomatic];
      assert SetReboot([], 0, RebootAutomatic) == Some([RebootAutomatic]);
      assert CollectReboots([RebootAutomatic], answers, 1, 1) == ([RebootAutomatic], true);
    }
  }

  /** Ten steps from the first boot, the update is installed. */
  lemma InstallSteps(cfg: Config, d: Disk, u: UpdateInfo, types: seq<string>)
    requires Unused(d) && |types| <= 1
    ensures var m := RunAll(cfg, Boot(d), Steps(Serving(u, types), 10));
            && m.cur.kind.Install? && OnAnswered(m, u, types, 5)
            && m.to.info.rebootRequested == seq(|types|, _ => RebootAutomatic)
            && m.to.kind == AfterInstall(types)
  {
    hide Next, Steps, OnAnswered, Unused;
    var env := Serving(u, types);
    PollingSteps(cfg, d, u, types);
    assert Steps(env, 10) == Steps(env, 4) + Steps(env, 6) by { StepsAdd(env, 4, 6); }
    RunOn(cfg, Boot(d), Steps(env, 4), Steps(env, 6));
    var m4 := RunAll(cfg, Boot(d), Steps(env, 4));
    OneStep(cfg, m4, env, 6);
    FetchStep(cfg, m4, u, types);
    var m5 := Next(cfg, m4, Go(env));
    OneStep(cfg, m5, env, 5);
    StoreStep(cfg, m5, u, types);
    var m6 := Next(cfg, m5, Go(env));
    OneStep(cfg, m6, env, 4);
    AfterStoreStep(cfg, m6, u, types);
    var m7 := Next(cfg, m6, Go(env));
    OneStep(cfg, m7, env, 3);
    GateSteps(cfg, m7, u, types, 4);
    var m8 := Next(cfg, m7, Go(env));
    OneStep(cfg, m8, env, 2);
    var m9 := Next(cfg, m8, Go(env));
    OneStep(cfg, m9, env, 1);
    InstallStep(cfg, m9, u, types);
    NoSteps(cfg, Next(cfg, m9, Go(env)), env);
  }

  lemma StepsAdd(env: Env, a: nat, b: nat)
    ensures Steps(env, a + b) == Steps(env, a) + Steps(env, b)
  {
  }

  // ------------------------------------------------------ a commit without payloads

  lemma CommitStep(cfg: Config, m: Machine, u: UpdateInfo)
    requires m.cur.kind.ControlMap? && m.to.kind == Commit(0) && OnAnswered(m, u, [], 5)
    ensures var m' := Next(cfg, m, Go(Serving(u, [])));
            m'.cur.kind.Commit? && m'.to.kind.AfterFirstCommit? && OnAnswered(m', u, [], 6)
  {
    hide StoreNewState, Counts, HandleCommit, Serving, Handle;
    var env := Serving(u, []);
    Served(u, []);
    LeftIsSame(m);
    Entry(m, env, 5);
    StepHandles(cfg, m, env);
    Dispatch(cfg, m.to, StoreNewState(m, env).0, m.vol, env);
    CommitHandled(cfg, m.to, StoreNewState(m, env).0, m.vol, env, 5);
  }

  /** The commit of no payload at all. */
  lemma CommitHandled(cfg: Config, s: State, d: Disk, vol: Volatile, env: Env, count: nat)
    requires s.kind == Commit(0) && vol.installers == 0 && !s.info.schemaUpdate
    requires env.scriptsCompatible && env.report.Landed? && env.handlerFault.NoFault?
    requires Counts(d, count) && count < MAX_STORE_COUNT && d.db.state.Some?
    ensures var o := HandleCommit(cfg, s, d, vol, env);
            && o.cur.kind.Commit? && o.next == State(AfterFirstCommit, s.info.(reportAttempts := 0)) && o.vol == vol
            && Counts(o.disk, count + 1) && o.disk.db.state.Some? && o.disk.history.newName == d.history.newName
  {
    hide Counts, StoreCommit;
    FactsCount(d, {EmptyArtifact}, count);
    var s1 := State(Commit(1), s.info.(reportAttempts := 0, schemaUpdate := false));
    CommitStores(cfg, s1, AddFacts(d, {EmptyArtifact}), vol, env, count);
  }

  lemma FactsCount(d: Disk, facts: set<Fact>, count: nat)
    ensures Counts(AddFacts(d, facts), count) <==> Counts(d, count)
  {
  }

  lemma CommitStores(cfg: Config, s: State, d: Disk, vol: Volatile, env: Env, count: nat)
    requires env.handlerFault.NoFault? && Counts(d, count) && count < MAX_STORE_COUNT && d.db.state.Some?
    requires !s.info.schemaUpdate
    ensures var o := StoreCommit(cfg, s, d, vol, env);
            && o.cur == s && o.next == State(AfterFirstCommit, s.info) && o.vol == vol
            && Counts(o.disk, count + 1) && o.disk.db.state.Some? && o.disk.history.newName == d.history.newName
  {
    hide CommittedArtifact;
  }

  lemma CommittedSteps(cfg: Config, m: Machine, u: UpdateInfo)
    requires m.cur.kind.Commit? && m.to.kind.AfterFirstCommit? && OnAnswered(m, u, [], 6)
    ensures var env := Serving(u, []);
            var m' := Next(cfg, Next(cfg, m, Go(env)), Go(env));
            && m'.to.kind == Cleanup(true) && RecordsAfterCommit(m'.disk, m'.to.info, 25)
            && m'.to.info.artifactName == u.artifactName
  {
    hide Next, Counts;
    FirstCommittedStep(cfg, m, u);
    AfterCommitStep(cfg, Next(cfg, m, Go(Serving(u, []))), u);
  }

  lemma FirstCommittedStep(cfg: Config, m: Machine, u: UpdateInfo)
    requires m.cur.kind.Commit? && m.to.kind.AfterFirstCommit? && OnAnswered(m, u, [], 6)
    ensures var m' := Next(cfg, m, Go(Serving(u, [])));
            m'.cur.kind.AfterFirstCommit? && m'.to.kind.AfterCommit? && OnAnswered(m', u, [], 7)
  {
    hide StoreNewState, Counts, CommitFacts, HandleError, Serving, Handle;
    var env := Serving(u, []);
    Served(u, []);
    LeftIsSame(m);
    Entry(m, env, 6);
    StepHandles(cfg, m, env);
    Dispatch(cfg, m.to, StoreNewState(m, env).0, m.vol, env);
    FactsCount(StoreNewState(m, env).0, CommitFacts(env, 1, m.vol.installers), 7);
  }

  lemma AfterCommitStep(cfg: Config, m: Machine, u: UpdateInfo)
    requires m.cur.kind.AfterFirstCommit? && m.to.kind.AfterCommit? && OnAnswered(m, u, [], 7)
    ensures var m' := Next(cfg, m, Go(Serving(u, [])));
            && m'.to.kind == Cleanup(true) && RecordsAfterCommit(m'.disk, m'.to.info, 25)
            && m'.to.info.artifactName == u.artifactName
  {
    hide StoreNewState, Counts, Serving, Handle, Recalled, OldState, Next;
    Served(u, []);
    LeftIsSame(m);
    Entry(m, Serving(u, []), 7);
    StepHandles(cfg, m, Serving(u, []));
    Dispatch(cfg, m.to, StoreNewState(m, Serving(u, [])).0, m.vol, Serving(u, []));
    CountedRecord(StoreNewState(m, Serving(u, [])).0, 8);
  }

  lemma CountedRecord(d: Disk, count: nat)
    requires Counts(d, count) && d.db.state.Some?
    ensures !OldState(d.db) && Recalled(d.db).Some? && d.db.state.value.info.storeCount == count
  {
  }

  /** Fifteen steps from the first boot, an update without payloads is ready for its last Cleanup. */
  lemma CleanupIsReached(cfg: Config, d: Disk, u: UpdateInfo)
    requires Unused(d)
    ensures var m := RunAll(cfg, Boot(d), Steps(Serving(u, []), 15));
            && m.to.kind == Cleanup(true) && RecordsAfterCommit(m.disk, m.to.info, 25)
            && m.to.info.artifactName == u.artifactName
  {
    hide Next, Steps, OnAnswered, Unused, RecordsAfterCommit;
    var env := Serving(u, []);
    InstallSteps(cfg, d, u, []);
    assert Steps(env, 15) == Steps(env, 10) + Steps(env, 5) by { StepsAdd(env, 10, 5); }
    RunOn(cfg, Boot(d), Steps(env, 10), Steps(env, 5));
    var m10 := RunAll(cfg, Boot(d), Steps(env, 10));
    OneStep(cfg, m10, env, 5);
    GateSteps(cfg, m10, u, [], 5);
    var m11 := Next(cfg, m10, Go(env));
    OneStep(cfg, m11, env, 4);
    var m12 := Next(cfg, m11, Go(env));
    OneStep(cfg, m12, env, 3);
    CommitStep(cfg, m12, u);
    var m13 := Next(cfg, m12, Go(env));
    OneStep(cfg, m13, env, 2);
    CommittedSteps(cfg, m13, u);
    var m14 := Next(cfg, m13, Go(env));
    OneStep(cfg, m14, env, 1);
    NoSteps(cfg, Next(cfg, m14, Go(env)), env);
  }

  /** From the first boot on, a deployment without payloads can report success under the broken name. */
  lemma FlaggedSuccessFromBoot(cfg: Config, d: Disk, u: UpdateInfo)
    requires StartsClean(d) && Unused(d)
    ensures var m := RunAll(cfg, Boot(d), Steps(Serving(u, []), 15) + FLAG_THEN_RESUME);
            && SendsSuccess(m)
            && m.disk.db.artifact.name == Some(u.artifactName + BROKEN_SUFFIX) != Some(m.disk.history.newName)
  {
    hide Next, Steps, RecordsAfterCommit, Inv, StartsClean;
    var (a, b) := (Steps(Serving(u, []), 15), FLAG_THEN_RESUME);
    CleanupIsReached(cfg, d, u);
    CleanStartHasInv(d);
    StepsWork(u, [], 15);
    RunKeepsInv(cfg, Boot(d), a);
    RunOn(cfg, Boot(d), a, b);
    var m := RunAll(cfg, Boot(d), a);
    FlaggedSuccess(cfg, m);
  }

  lemma StepsWork(u: UpdateInfo, types: seq<string>, n: nat)
    ensures forall c :: c in Steps(Serving(u, types), n) ==> Works(c)
  {
  }

  // ------------------------------------------- a new system that cannot be verified

  /** A power loss right after a state has been stored. */
  lemma LossAfterEntry(cfg: Config, m: Machine, env: Env)
    requires ScriptsSucceed(env) && m.to.kind.IsUpdateState() && StoreNewState(Left(m), env).1.Stored?
    ensures Next(cfg, m, PowerLoss(env, 1)) == Boot(StoreNewState(Left(m), env).0)
  {
    hide StoreNewState, Handle, Bootstrap, CountedAtStart;
    var d := StoreNewState(Left(m), env).0;
    assert TransitionState(cfg, m, env).cuts[0] == d;
  }

  /** A root filesystem is installed, the host reboots, and power is lost with the reboot on record. */
  lemma RebootSteps(cfg: Config, m: Machine, u: UpdateInfo, types: seq<string>)
    requires |types| == 1 && m.cur.kind.ControlMap? && m.to.kind.Reboot? && OnAnswered(m, u, types, 5)
    requires m.to.info.rebootRequested == [RebootAutomatic]
    ensures var m' := Next(cfg, m, PowerLoss(Serving(u, types), 1));
            && m' == Boot(m'.disk) && Counts(m'.disk, 5) && m'.disk.db.state.Some?
            && m'.disk.db.state.value.name.IdReboot? && Rooted(m'.disk.db.state.value.info, types)
  {
    hide Counts, Serving, StoreNewState, Next, Recalled, OldState;
    var env := Serving(u, types);
    Served(u, types);
    LeftIsSame(m);
    Entry(m, env, 5);
    EntryKeepsAnswers(m, env);
    LossAfterEntry(cfg, m, env);
  }

  /** The payload supports rollback and has asked for a reboot. */
  predicate Rooted(info: UpdateInfo, types: seq<string>) {
    info.payloadTypes == types && info.supportsRollback.Supported? && info.rebootRequested == [RebootAutomatic]
  }

  lemma EntryKeepsAnswers(m: Machine, env: Env)
    requires env.storeFault.NoFault? && !m.to.info.schemaUpdate
    ensures var (d, r) := StoreNewState(m, env);
            && d.db.state.Some? && d.db.state.value.info.supportsRollback == m.to.info.supportsRollback
            && d.db.state.value.info.rebootRequested == m.to.info.rebootRequested
            && d.db.state.value.info.payloadTypes == m.to.info.payloadTypes
  {
  }

  /** The new system starts, and its reboot is to be verified. */
  lemma StartVerifies(cfg: Config, d: Disk, types: seq<string>)
    requires |types| == 1 && Counts(d, 5) && d.db.state.Some? && d.db.state.value.name.IdReboot?
    requires Rooted(d.db.state.value.info, types)
    ensures var m := Next(cfg, Boot(d), Go(FAILING));
            && m.cur.kind.Init? && m.to.kind.VerifyReboot? && Counts(m.disk, 7) && m.disk.db.state.Some?
            && Rooted(m.to.info, types) && !m.to.info.schemaUpdate && m.vol.installers == 1
  {
    hide Bootstrap, HandleInit, TransitionState;
    StartLoads(cfg, d, FAILING);
    RebootIsVerified(Bootstrap(d, FAILING), types, 6);
  }

  lemma RebootIsVerified(d: Disk, types: seq<string>, count: nat)
    requires |types| == 1 && !OldState(d.db) && Recalled(d.db).Some? && Count(d.db) == count < MAX_STORE_COUNT
    requires Recalled(d.db).value.name.IdReboot? && Rooted(Recalled(d.db).value.info, types)
    ensures var o := HandleInit(Polling(Init), d, Boot(d).vol, FAILING);
            && o.cur.kind.Init? && o.next.kind.VerifyReboot? && Counts(o.disk, count + 1) && o.disk.db.state.Some?
            && Rooted(o.next.info, types) && !o.next.info.schemaUpdate && o.vol.installers == 1
  {
  }

  /** It cannot be verified, and the update is rolled back. */
  lemma VerificationTurnsBack(cfg: Config, m: Machine, types: seq<string>)
    requires m.cur.kind.Init? && m.to.kind.VerifyReboot? && Counts(m.disk, 7) && m.disk.db.state.Some?
    requires Rooted(m.to.info, types) && !m.to.info.schemaUpdate && m.vol.installers == 1
    ensures var m' := Next(cfg, m, Go(FAILING));
            && m'.cur.kind.VerifyReboot? && m'.to == State(Rollback, m.to.info) && m'.vol == m.vol
            && Counts(m'.disk, 7) && m'.disk.db.state.Some?
  {
    hide StoreNewState, Counts, Handle;
    LeftIsSame(m);
    Entry(m, FAILING, 7);
    StepHandles(cfg, m, FAILING);
    Dispatch(cfg, m.to, StoreNewState(m, FAILING).0, m.vol, FAILING);
    FactsCount(StoreNewState(m, FAILING).0, VerifyFacts(FAILING, 1), 7);
    assert !Succeeds(FAILING, 0);
  }

  lemma RollbackStep(cfg: Config, m: Machine, u: UpdateInfo, types: seq<string>)
    requires |types| == 1 && m.cur.kind.VerifyReboot? && m.to.kind.Rollback? && Counts(m.disk, 7)
    requires m.disk.db.state.Some? && Rooted(m.to.info, types) && !m.to.info.schemaUpdate && m.vol.installers == 1
    ensures var m' := Next(cfg, m, Go(Serving(u, types)));
            && m'.cur.kind.Rollback? && m'.to == State(RollbackReboot, m.to.info)
            && Counts(m'.disk, 8) && m'.disk.db.state.Some?
  {
    hide StoreNewState, Counts, Handle, Serving, QueryReboots, WantsReboot;
    var env := Serving(u, types);
    Served(u, types);
    LeftIsSame(m);
    Entry(m, env, 7);
    StepHandles(cfg, m, env);
    Dispatch(cfg, m.to, StoreNewState(m, env).0, m.vol, env);
    assert AllSucceed(env, 1);
    NothingToQuery(env.rebootAnswers);
  }

  lemma NothingToQuery(answers: seq<Option<RebootType>>)
    ensures QueryReboots([RebootAutomatic], answers, 0, 1) == [RebootAutomatic]
    ensures WantsReboot([RebootAutomatic], 1)
  {
    assert ![RebootAutomatic][0].RebootNone?;
  }

  lemma RollbackRebootStep(cfg: Config, m: Machine, u: UpdateInfo, types: seq<string>)
    requires |types| == 1 && m.cur.kind.Rollback? && m.to.kind.RollbackReboot? && Counts(m.disk, 8)
    requires m.disk.db.state.Some? && Rooted(m.to.info, types) && !m.to.info.schemaUpdate
    ensures var m' := Next(cfg, m, PowerLoss(Serving(u, types), 1));
            m' == Boot(m'.disk) && RebootRecorded(m'.disk, 9)
  {
    hide Counts, Serving, RebootRecorded, StoreNewState, Next, Recalled, OldState;
    var env := Serving(u, types);
    Served(u, types);
    LeftIsSame(m);
    Entry(m, env, 8);
    LossAfterEntry(cfg, m, env);
    RecordsReboot(StoreNewState(m, env).0, 9);
  }

  lemma RecordsReboot(d: Disk, count: nat)
    requires Counts(d, count) && d.db.state.Some? && d.db.state.value.name.IdRollbackReboot?
    requires d.db.state.value.info.payloadTypes != [] && count <= MAX_STORE_COUNT
    ensures RebootRecorded(d, count)
  {
  }

  /** Install, reboot, fail to verify the new system, and go back to the old one. */
  function ToRollbackReboot(u: UpdateInfo, types: seq<string>): seq<Choice> {
    Steps(Serving(u, types), 12)
    + [PowerLoss(Serving(u, types), 1), Go(FAILING), Go(FAILING),
       Go(Serving(u, types)), PowerLoss(Serving(u, types), 1)]
  }

  /** From the first boot on, the first rollback reboot is stored with the count 9, a multiple of three. */
  lemma RollbackRebootIsReached(cfg: Config, d: Disk, u: UpdateInfo, types: seq<string>)
    requires Unused(d) && |types| == 1
    ensures var m := RunAll(cfg, Boot(d), ToRollbackReboot(u, types));
            m == Boot(m.disk) && RebootRecorded(m.disk, 9)
  {
    hide Next, Steps, OnAnswered, Unused, RebootRecorded, Counts, Rooted;
    var env := Serving(u, types);
    InstallSteps(cfg, d, u, types);
    assert Steps(env, 12) == Steps(env, 10) + Steps(env, 2) by { StepsAdd(env, 10, 2); }
    RunOn(cfg, Boot(d), Steps(env, 10), Steps(env, 2));
    var m10 := RunAll(cfg, Boot(d), Steps(env, 10));
    OneStep(cfg, m10, env, 2);
    GateSteps(cfg, m10, u, types, 5);
    var m11 := Next(cfg, m10, Go(env));
    OneStep(cfg, m11, env, 1);
    var m12 := Next(cfg, m11, Go(env));
    NoSteps(cfg, m12, env);
    OneAnswer(types);
    RebootSteps(cfg, m12, u, types);
    var c := [PowerLoss(env, 1), Go(FAILING), Go(FAILING), Go(env), PowerLoss(env, 1)];
    RunOn(cfg, Boot(d), Steps(env, 12), c);
    RunFive(cfg, m12, c);
    var m13 := Next(cfg, m12, PowerLoss(env, 1));
    StartVerifies(cfg, m13.disk, types);
    var m14 := Next(cfg, m13, Go(FAILING));
    VerificationTurnsBack(cfg, m14, types);
    var m15 := Next(cfg, m14, Go(FAILING));
    RollbackStep(cfg, m15, u, types);
    RollbackRebootStep(cfg, Next(cfg, m15, Go(env)), u, types);
  }

  lemma OneAnswer(types: seq<string>)
    requires |types| == 1
    ensures seq(|types|, _ => RebootAutomatic) == [RebootAutomatic]
  {
  }

  /**
   An ordinary deployment that never ends: its new system cannot be verified, and from
   then on the rollback reboot cannot either.
   */
  lemma DeploymentNeverEnds(cfg: Config, d: Disk, u: UpdateInfo, types: seq<string>)
    requires Unused(d) && |types| == 1
    ensures var m := RunAll(cfg, Boot(d), ToRollbackReboot(u, types));
            NeverOver(cfg, m, RebootLoop()) && AlwaysProductive(cfg, m, RebootLoop())
  {
    hide Next, NeverOver, AlwaysProductive;
    RollbackRebootIsReached(cfg, d, u, types);
    FailingRebootNeverEnds(cfg, RunAll(cfg, Boot(d), ToRollbackReboot(u, types)).disk);
  }
}
