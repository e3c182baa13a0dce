/**
 Runs of a deployment that never end, one for each thing that the termination result
 asks to happen only finitely often: none of them can be spared.
 */
module Endless {
  import opened Wrappers
  import opened StateData
  import opened Datastore
  import opened UpdateStates
  import opened Daemon
  import opened Starts
  import opened Invariants
  import opened Outcomes
  import opened Termination
  import Recovery

  ghost predicate NeverOver(cfg: Config, m: Machine, run: nat -> Choice) {
    forall n: nat :: !Over(MachineAt(cfg, m, run, n).to.kind)
  }

  /** No step is unproductive. */
  ghost predicate AlwaysProductive(cfg: Config, m: Machine, run: nat -> Choice) {
    forall n: nat :: !Unproductive(cfg, MachineAt(cfg, m, run, n), run(n))
  }

  /** No start finds the count at its maximum. */
  ghost predicate NeverForgets(cfg: Config, m: Machine, run: nat -> Choice) {
    forall n: nat :: !Forgets(MachineAt(cfg, m, run, n))
  }

  function LossesAt(cut: nat): nat -> Choice { (i: nat) => PowerLoss(Calm(), cut) }

  // ------------------------------------------------------ the first of the two loads

  /** A start that resumes a record, by the two loads it makes. */
  lemma StartLoads(cfg: Config, d: Disk, env: Env)
    requires StoreWorks(env) && Recalled(d.db).Some?
    ensures var d1 := Bootstrap(d, env);
            && Recalled(d1.db) == Some(AfterLoad(Recalled(d.db).value))
            && OldState(d1.db) == OldState(d.db)
            && TransitionState(cfg, Started(Boot(d), env), env) == HandleInit(Polling(Init), d1, Boot(d).vol, env)
            && Cuts(cfg, Boot(d), env)
               == [d, CountedAtStart(d, env), d1] + HandleInit(Polling(Init), d1, Boot(d).vol, env).cuts
  {
    hide Bootstrap, CountedAtStart, HandleInit, Recalled, OldState;
    BootstrapRecounts(d, env);
    BootEntersDirectly(cfg, Started(Boot(d), env), env);
    EntersWhatItHandles(cfg, Started(Boot(d), env), env);
  }

  lemma EntersWhatItHandles(cfg: Config, m: Machine, env: Env)
    requires m.cur.kind.Init? && m.to.kind.Init? && Left(m) == m
    ensures TransitionState(cfg, m, env) == EnterState(cfg, m, env)
  {
    hide EnterState;
  }

  // ----------------------------------------------------------- losses at the limit

  predicate OddRecord(d: Disk) { Recalled(d.db).Some? && Count(d.db) % 2 == 1 && Count(d.db) < MAX_STORE_COUNT }

  /** Power is lost right after each start has loaded the record for the second time. */
  lemma LossAfterLoads(cfg: Config, d: Disk)
    requires OddRecord(d)
    ensures var m := Next(cfg, Boot(d), PowerLoss(Calm(), 3));
            && m == Boot(m.disk) && OddRecord(m.disk)
            && (Unproductive(cfg, Boot(d), PowerLoss(Calm(), 3)) <==> Count(d.db) == MAX_STORE_COUNT - 1)
  {
    hide Bootstrap, HandleInit, TransitionState;
    StartLoads(cfg, d, Calm());
    SecondLoadCut(Bootstrap(d, Calm()));
    RecordDiffers(d, HandleInit(Polling(Init), Bootstrap(d, Calm()), Boot(d).vol, Calm()).cuts[0]);
  }

  lemma RecordDiffers(d: Disk, d': Disk)
    requires Recalled(d.db) != Recalled(d'.db)
    ensures !Recovery.SameRecord(d, d')
  {
  }

  lemma SecondLoadCut(d: Disk)
    requires Recalled(d.db).Some? && Count(d.db) > 0
    ensures var o := HandleInit(Polling(Init), d, Boot(d).vol, Calm());
            && |o.cuts| == 1 && Recalled(o.cuts[0].db).Some?
            && Count(o.cuts[0].db) == (if Count(d.db) >= MAX_STORE_COUNT then 1 else Count(d.db) + 1)
            && (Pending(o.cuts[0]) <==> Count(d.db) >= MAX_STORE_COUNT)
  {
    hide Resume;
  }

  lemma {:induction false} LoadsForEver(cfg: Config, d: Disk, n: nat)
    requires OddRecord(d)
    ensures var m := MachineAt(cfg, Boot(d), LossesAt(3), n); m == Boot(m.disk) && OddRecord(m.disk)
  {
    hide Next, OddRecord;
    if n > 0 {
      LoadsForEver(cfg, d, n - 1);
      LossAfterLoads(cfg, MachineAt(cfg, Boot(d), LossesAt(3), n - 1).disk);
    }
  }

  /**
   A run that never ends, whose power losses are all productive but for those in the
   step in which the loop limit fires: once in every fifteen starts.
   */
  lemma LimitLossesNeverEnd(cfg: Config, d: Disk)
    requires OddRecord(d)
    ensures var run := LossesAt(3);
            && NeverOver(cfg, Boot(d), run) && NeverForgets(cfg, Boot(d), run) && (forall n :: Calmly(run(n)))
            && forall n: nat :: var m := MachineAt(cfg, Boot(d), run, n);
                                Unproductive(cfg, m, run(n)) <==> Count(m.disk.db) == MAX_STORE_COUNT - 1
  {
    hide Next, Recalled, Unproductive, Count, MachineAt;
    forall n: nat
      ensures var m := MachineAt(cfg, Boot(d), LossesAt(3), n);
              && !Over(m.to.kind) && !Forgets(m)
              && (Unproductive(cfg, m, LossesAt(3)(n)) <==> Count(m.disk.db) == MAX_STORE_COUNT - 1)
    {
      LoadsForEver(cfg, d, n);
      LossAfterLoads(cfg, MachineAt(cfg, Boot(d), LossesAt(3), n).disk);
    }
  }

  // ----------------------------------------------------------- losses at the start

  /** A run that never ends, in which every power loss comes before the record is loaded. */
  lemma BootLossesNeverEnd(cfg: Config, d: Disk)
    requires Count(d.db) < MAX_STORE_COUNT
    ensures var run := LossesAt(0);
            && NeverOver(cfg, Boot(d), run) && NeverForgets(cfg, Boot(d), run) && (forall n :: Calmly(run(n)))
            && forall n: nat :: MachineAt(cfg, Boot(d), run, n) == Boot(d)
  {
    forall n: nat
      ensures MachineAt(cfg, Boot(d), LossesAt(0), n) == Boot(d)
    {
      StaysAtBoot(cfg, d, n);
    }
  }

  lemma {:induction false} StaysAtBoot(cfg: Config, d: Disk, n: nat)
    ensures MachineAt(cfg, Boot(d), LossesAt(0), n) == Boot(d)
  {
    hide TransitionState, Bootstrap, CountedAtStart;
    if n > 0 { StaysAtBoot(cfg, d, n - 1); }
  }

  // ------------------------------------------------------ losses with a report due

  function LossesAtReports(): nat -> Choice { (i: nat) => if i % 2 == 0 then Go(Calm()) else PowerLoss(Calm(), 0) }

  predicate ReportRecorded(d: Disk) { OddRecord(d) && Recalled(d.db).value.name.IdUpdateStatusReport? }

  lemma ReportIsResumed(cfg: Config, d: Disk)
    requires ReportRecorded(d)
    ensures var m := Next(cfg, Boot(d), Go(Calm())); m.to.kind.StatusReport? && ReportRecorded(m.disk)
  {
    hide Bootstrap, HandleInit, TransitionState;
    StartLoads(cfg, d, Calm());
    ReportResumed(Bootstrap(d, Calm()));
  }

  lemma ReportResumed(d: Disk)
    requires Recalled(d.db).Some? && Count(d.db) > 0 && Recalled(d.db).value.name.IdUpdateStatusReport?
    ensures var o := HandleInit(Polling(Init), d, Boot(d).vol, Calm());
            && o.next.kind.StatusReport? && Recalled(o.disk.db).Some?
            && Recalled(o.disk.db).value.name.IdUpdateStatusReport?
            && Count(o.disk.db) == (if Count(d.db) >= MAX_STORE_COUNT then 1 else Count(d.db) + 1)
  {
  }

  lemma {:induction false} ReportsForEver(cfg: Config, d: Disk, n: nat)
    requires ReportRecorded(d)
    ensures var m := MachineAt(cfg, Boot(d), LossesAtReports(), n);
            ReportRecorded(m.disk) && if n % 2 == 0 then m == Boot(m.disk) else m.to.kind.StatusReport?
  {
    hide TransitionState, ReportRecorded, Started, StartCuts;
    if n > 0 {
      ReportsForEver(cfg, d, n - 1);
      var m := MachineAt(cfg, Boot(d), LossesAtReports(), n - 1);
      if n % 2 == 1 { ReportIsResumed(cfg, m.disk); } else { LossAtOnce(cfg, m); }
    }
  }

  lemma LossAtOnce(cfg: Config, m: Machine)
    ensures Next(cfg, m, PowerLoss(Calm(), 0)) == Boot(m.disk)
  {
    hide TransitionState, Bootstrap, CountedAtStart;
  }

  /** A run that never ends, in which power is only lost with a report due. */
  lemma ReportLossesNeverEnd(cfg: Config, d: Disk)
    requires ReportRecorded(d)
    ensures var run := LossesAtReports();
            && NeverOver(cfg, Boot(d), run) && NeverForgets(cfg, Boot(d), run) && (forall n :: Calmly(run(n)))
            && forall n: nat :: run(n).PowerLoss? ==> MachineAt(cfg, Boot(d), run, n).to.kind.StatusReport?
  {
    hide Next, Recalled, MachineAt;
    forall n: nat
      ensures var m := MachineAt(cfg, Boot(d), LossesAtReports(), n);
              && !Over(m.to.kind) && !Forgets(m)
              && (LossesAtReports()(n).PowerLoss? ==> m.to.kind.StatusReport?)
    {
      ReportsForEver(cfg, d, n);
    }
  }

  // -------------------------------------- a rollback reboot that keeps failing

  /** No payload can verify its rollback reboot. */
  const FAILING := Calm().(results := [])

  /** The start, the failing verification, and the rollback reboot, which the power loss stands for. */
  function RebootLoop(): nat -> Choice { (i: nat) => if i % 3 == 2 then PowerLoss(FAILING, 1) else Go(FAILING) }

  /** A rollback reboot is on record, with this count. */
  predicate RebootRecorded(d: Disk, count: nat) {
    && !OldState(d.db) && Recalled(d.db).Some? && Recalled(d.db).value.name.IdRollbackReboot?
    && Recalled(d.db).value.info.payloadTypes != [] && Count(d.db) == count <= MAX_STORE_COUNT
  }

  predicate InfoStored(m: Machine, count: nat) {
    && !OldState(m.disk.db) && m.disk.db.state.Some? && Recalled(m.disk.db).Some? && Count(m.disk.db) == count
    && !m.to.info.schemaUpdate && m.to.info.payloadTypes != [] && m.vol.installers > 0
  }

  predicate VerifyDue(m: Machine, count: nat) {
    m.cur.kind.Init? && m.to.kind.VerifyRollbackReboot? && InfoStored(m, count)
  }

  predicate RebootDue(m: Machine, count: nat) {
    m.cur.kind.VerifyRollbackReboot? && m.to.kind.RollbackReboot? && InfoStored(m, count)
  }

  /** The first load forgets a count of 30; so only from 29 does the second one find the maximum. */
  lemma VerifyResumes(cfg: Config, d: Disk, count: nat)
    requires RebootRecorded(d, count)
    ensures var m := Next(cfg, Boot(d), Go(FAILING));
            if count == MAX_STORE_COUNT - 1 then m.to.kind.StatusReport?
            else VerifyDue(m, if count == MAX_STORE_COUNT then 2 else count + 2)
  {
    hide Bootstrap, HandleInit, TransitionState;
    StartLoads(cfg, d, FAILING);
    RebootResumed(Bootstrap(d, FAILING));
  }

  lemma RebootResumed(d: Disk)
    requires !OldState(d.db) && Recalled(d.db).Some? && Recalled(d.db).value.name.IdRollbackReboot?
    requires Recalled(d.db).value.info.payloadTypes != []
    ensures var o := HandleInit(Polling(Init), d, Boot(d).vol, FAILING);
            if Count(d.db) >= MAX_STORE_COUNT then o.next.kind.StatusReport?
            else
              && o.cur.kind.Init? && o.next.kind.VerifyRollbackReboot? && !o.next.info.schemaUpdate
              && o.next.info.payloadTypes != [] && o.vol.installers > 0
              && !OldState(o.disk.db) && o.disk.db.state.Some? && Recalled(o.disk.db).Some?
              && Count(o.disk.db) == Count(d.db) + 1
  {
  }

  lemma EntryStores(m: Machine, count: nat)
    requires InfoStored(m, count) && (m.to.kind.VerifyRollbackReboot? || m.to.kind.RollbackReboot?)
    ensures var (d, r) := StoreNewState(m, FAILING);
            if count >= MAX_STORE_COUNT then r.CountExceeded?
            else
              && r.Stored? && !OldState(d.db) && d.db.state.Some? && Recalled(d.db).Some? && !Pending(d)
              && Recalled(d.db).value.name == m.to.kind.Id()
              && Recalled(d.db).value.info.payloadTypes == m.to.info.payloadTypes
              && Count(d.db) == count + (if Counted(m.cur.kind, m.to.kind) then 1 else 0)
  {
  }

  /** The scripts around a rollback reboot cannot stop it. */
  lemma RebootEnters(cfg: Config, m: Machine, count: nat)
    requires VerifyDue(m, count) || RebootDue(m, count)
    ensures Left(m) == m && Started(m, FAILING) == m && StartCuts(m, FAILING) == [m.disk]
    ensures TransitionState(cfg, m, FAILING) == EnterState(cfg, m, FAILING)
    ensures forall d :: EnterAndHandle(cfg, m, d, FAILING) == HandleEnding(cfg, m.to, d, m.vol, FAILING)
  {
    hide EnterState, HandleEnding, Recalled, OldState;
  }

  lemma VerifyFails(cfg: Config, m: Machine, count: nat)
    requires VerifyDue(m, count) && count <= MAX_STORE_COUNT
    ensures var m' := Next(cfg, m, Go(FAILING));
            if count == MAX_STORE_COUNT then m'.to.kind.StatusReport? else RebootDue(m', count)
  {
    hide StoreNewState, TransitionState, EnterAndHandle, Recalled, OldState, Count, HandleError;
    EntryStores(m, count);
    RebootEnters(cfg, m, count);
    VerificationFails(cfg, m, StoreNewState(m, FAILING).0);
  }

  lemma VerificationFails(cfg: Config, m: Machine, d: Disk)
    requires m.to.kind.VerifyRollbackReboot? && m.vol.installers > 0
    ensures HandleEnding(cfg, m.to, d, m.vol, FAILING)
            == Outcome(m.to, State(RollbackReboot, m.to.info), d, m.vol, [])
  {
    assert !Succeeds(FAILING, 0);
  }

  lemma RebootIsStored(cfg: Config, m: Machine, count: nat)
    requires RebootDue(m, count) && count < MAX_STORE_COUNT
    ensures var m' := Next(cfg, m, PowerLoss(FAILING, 1));
            m' == Boot(m'.disk) && RebootRecorded(m'.disk, count + 1) && !Pending(m'.disk)
  {
    hide StoreNewState, TransitionState, EnterAndHandle, Recalled, OldState, Count, HandleEnding, Started, StartCuts;
    EntryStores(m, count);
    RebootEnters(cfg, m, count);
    assert EnterState(cfg, m, FAILING).cuts[0] == StoreNewState(m, FAILING).0;
  }

  /** Turn i of the loop begins with this rollback reboot on record. */
  predicate TurnBegins(cfg: Config, d: Disk, i: nat, count: nat) {
    var m := MachineAt(cfg, Boot(d), RebootLoop(), 3 * i); m == Boot(m.disk) && RebootRecorded(m.disk, count)
  }

  /** One turn: it is given up, or it counts three times. */
  lemma Turn(cfg: Config, d: Disk, i: nat, count: nat)
    requires TurnBegins(cfg, d, i, count)
    ensures var m1 := MachineAt(cfg, Boot(d), RebootLoop(), 3 * i + 1);
            var m2 := MachineAt(cfg, Boot(d), RebootLoop(), 3 * i + 2);
            if count == MAX_STORE_COUNT - 1 then m1.to.kind.StatusReport?
            else if count == MAX_STORE_COUNT - 2 then m2.to.kind.StatusReport?
            else
              var loaded := if count == MAX_STORE_COUNT then 2 else count + 2;
              && VerifyDue(m1, loaded) && RebootDue(m2, loaded) && TurnBegins(cfg, d, i + 1, loaded + 1)
  {
    hide Next, RebootRecorded, VerifyDue, RebootDue;
    var run := RebootLoop();
    assert run(3 * i) == Go(FAILING) && run(3 * i + 1) == Go(FAILING) && run(3 * i + 2) == PowerLoss(FAILING, 1);
    var m := MachineAt(cfg, Boot(d), run, 3 * i);
    var m1 := MachineAt(cfg, Boot(d), run, 3 * i + 1);
    var m2 := MachineAt(cfg, Boot(d), run, 3 * i + 2);
    var m3 := MachineAt(cfg, Boot(d), run, 3 * i + 3);
    assert m1 == Next(cfg, m, Go(FAILING)) && m2 == Next(cfg, m1, Go(FAILING));
    assert m3 == Next(cfg, m2, PowerLoss(FAILING, 1)) && 3 * (i + 1) == 3 * i + 3;
    RecordedCount(m.disk, count);
    VerifyResumes(cfg, m.disk, count);
    if count != MAX_STORE_COUNT - 1 {
      var loaded := if count == MAX_STORE_COUNT then 2 else count + 2;
      VerifyFails(cfg, m1, loaded);
      if loaded < MAX_STORE_COUNT { RebootIsStored(cfg, m2, loaded); }
    }
  }

  lemma RecordedCount(d: Disk, count: nat)
    requires RebootRecorded(d, count)
    ensures count <= MAX_STORE_COUNT
  {
  }

  lemma {:induction false} LoopsForEver(cfg: Config, d: Disk, i: nat) returns (count: nat)
    requires Recalled(d.db).Some? && Count(d.db) % 3 == 0 && RebootRecorded(d, Count(d.db))
    ensures count % 3 == 0 && count <= MAX_STORE_COUNT && TurnBegins(cfg, d, i, count)
  {
    hide Next, RebootRecorded;
    if i == 0 {
      assert MachineAt(cfg, Boot(d), RebootLoop(), 3 * i) == Boot(d);
      count := Count(d.db);
      RecordedCount(d, count);
    } else {
      var before := LoopsForEver(cfg, d, i - 1);
      Turn(cfg, d, i - 1, before);
      count := if before == MAX_STORE_COUNT then 3 else before + 3;
    }
  }

  lemma {:induction false} LoopIsLeft(cfg: Config, d: Disk, i: nat, count: nat) returns (n: nat)
    requires TurnBegins(cfg, d, i, count) && count <= MAX_STORE_COUNT && count % 3 != 0
    ensures MachineAt(cfg, Boot(d), RebootLoop(), n).to.kind.IsReporting()
    decreases MAX_STORE_COUNT - count
  {
    hide Next, MachineAt, VerifyDue, RebootDue, TurnBegins;
    Turn(cfg, d, i, count);
    if count == MAX_STORE_COUNT - 1 { n := 3 * i + 1; }
    else if count == MAX_STORE_COUNT - 2 { n := 3 * i + 2; }
    else { n := LoopIsLeft(cfg, d, i + 1, count + 3); }
  }

  /** What is true of every step when the count is a multiple of three. */
  lemma LoopStep(cfg: Config, d: Disk, n: nat)
    requires RebootRecorded(d, Count(d.db)) && Count(d.db) % 3 == 0
    ensures var m := MachineAt(cfg, Boot(d), RebootLoop(), n);
            && !Over(m.to.kind) && !m.to.kind.IsReporting() && !Unproductive(cfg, m, RebootLoop()(n))
            && (Forgets(m) <==> n % 3 == 0 && Count(m.disk.db) == MAX_STORE_COUNT)
  {
    hide Next, MachineAt, Count, Calm;
    var i := n / 3;
    var count := LoopsForEver(cfg, d, i);
    Turn(cfg, d, i, count);
    var m := MachineAt(cfg, Boot(d), RebootLoop(), n);
    assert n == 3 * i || n == 3 * i + 1 || n == 3 * i + 2;
    assert (n % 3 == 2) == (n == 3 * i + 2) && (n % 3 == 0) == (n == 3 * i);
    if n == 3 * i + 2 { RebootIsStored(cfg, m, if count == MAX_STORE_COUNT then 2 else count + 2); }
  }

  lemma LoopIsCalm(n: nat)
    ensures Calmly(RebootLoop()(n))
  {
  }

  /**
   A run that never ends, without one unproductive power loss: a rollback reboot that
   always fails. Every turn counts three times, two of them by loads; so from a multiple
   of three it is always the load that forgets which finds the maximum.
   */
  lemma FailingRebootNeverEnds(cfg: Config, d: Disk)
    requires RebootRecorded(d, Count(d.db)) && Count(d.db) % 3 == 0
    ensures var run := RebootLoop();
            && NeverOver(cfg, Boot(d), run) && AlwaysProductive(cfg, Boot(d), run) && (forall n :: Calmly(run(n)))
            && forall n: nat :: var m := MachineAt(cfg, Boot(d), run, n);
                                Forgets(m) <==> n % 3 == 0 && Count(m.disk.db) == MAX_STORE_COUNT
  {
    hide Next, MachineAt, Forgets, Unproductive, Over, Calmly, Count, RebootLoop, RebootRecorded;
    forall n: nat
      ensures var m := MachineAt(cfg, Boot(d), RebootLoop(), n);
              && !Over(m.to.kind) && !Unproductive(cfg, m, RebootLoop()(n)) && Calmly(RebootLoop()(n))
              && (Forgets(m) <==> n % 3 == 0 && Count(m.disk.db) == MAX_STORE_COUNT)
    {
      LoopStep(cfg, d, n);
      LoopIsCalm(n);
    }
  }

  /** A rollback reboot that always fails is given up exactly when its count on record is no multiple of three. */
  lemma FailingRebootIsGivenUpExactly(cfg: Config, d: Disk)
    requires RebootRecorded(d, Count(d.db))
    ensures (exists n: nat :: MachineAt(cfg, Boot(d), RebootLoop(), n).to.kind.IsReporting())
            <==> Count(d.db) % 3 != 0
  {
    hide Next, Count, RebootRecorded;
    if Count(d.db) % 3 == 0 {
      forall n: nat ensures !MachineAt(cfg, Boot(d), RebootLoop(), n).to.kind.IsReporting() { LoopStep(cfg, d, n); }
    } else {
      RecordedCount(d, Count(d.db));
      assert MachineAt(cfg, Boot(d), RebootLoop(), 3 * 0) == Boot(d);
      var n := LoopIsLeft(cfg, d, 0, Count(d.db));
    }
  }
}
