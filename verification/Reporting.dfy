/**
 How often the final status is sent. Without restarts the retry counters bound the
 visits to StatusReport; with restarts the attempts kept in the database do.
 */
module Reporting {
  import opened Wrappers
  import opened StateData
  import opened Datastore
  import opened UpdateStates
  import opened Daemon
  import opened Invariants
  import opened PointOfNoReturn
  import opened Termination
  import opened Outcomes

  /** maxSendingAttempts plus one takes three values only, by how many retry intervals fit into one poll interval. */
  lemma MaxSendsValues(cfg: Config)
    ensures MaxSends(cfg) in {4, 9, 11}
    ensures MaxSends(cfg) == 4 <==> cfg.retryPoll == 0 || cfg.updatePoll < 4 * cfg.retryPoll
    ensures MaxSends(cfg) == 11 <==> cfg.retryPoll > 0 && cfg.updatePoll >= 5 * cfg.retryPoll
  {
    if cfg.retryPoll != 0 {
      var max := cfg.updatePoll / cfg.retryPoll;
      assert max == 4 || max <= 3 || max >= 5;
      Quotient(cfg.updatePoll, cfg.retryPoll);
    }
  }

  lemma Quotient(a: nat, b: nat)
    requires b > 0
    ensures a / b < 4 <==> a < 4 * b
    ensures a / b >= 5 <==> a >= 5 * b
  {
    assert a / b * b <= a < (a / b + 1) * b;
    if a / b < 4 { assert (a / b + 1) * b <= 4 * b; } else { assert a / b * b >= 4 * b; }
    if a / b >= 5 { assert a / b * b >= 5 * b; } else { assert (a / b + 1) * b <= 5 * b; }
  }

  // --------------------------------------------------- one sequence, no restart

  /** A report is due, and nothing stops the agent from entering it. */
  predicate ReportDue(m: Machine) {
    Inv(m) && m.to.kind.IsReporting() && !m.cur.kind.UpdateCheck? && !LeaveMayFail(m.cur.kind)
  }

  /** And the loop limit is not near. */
  predicate ReportReady(m: Machine) { ReportDue(m) && !NearLimit(m) }

  predicate ScriptsFine(env: Env) { StoreWorks(env) && env.errorScripts }

  lemma ReportLeavePasses(from: Kind, to: Kind, env: Env)
    requires env.errorScripts && to.IsReporting() && !LeaveMayFail(from) && !from.UpdateCheck?
    ensures LeavePasses(from, to, env)
  {
  }

  /** A step of a ready report is exactly its handler on the stored disk, and leaves a ready report or Idle. */
  lemma ReportStep(cfg: Config, m: Machine, env: Env)
    requires ReportReady(m) && ScriptsFine(env)
    ensures var m' := Next(cfg, m, Go(env));
            && (exists d :: var o := Handle(cfg, m.to, d, m.vol, env); m' == Machine(o.cur, o.next, d, o.vol))
            && (m'.to.kind.Idle? || ReportReady(m'))
  {
    hide Handle, HandleError, KindInv, InfoInv, DiskInv, TransitionState, EnterAndHandle;
    ReportLeavePasses(m.cur.kind, m.to.kind, env);
    NextKeepsInv(cfg, m, Go(env));
    LeftKeepsInv(m);
    LeftKeepsRoom(m);
    var n := Left(m);
    ReportEntryCounts(n, env);
    var (d, r) := StoreNewState(n, env);
    LimitIsFar(n, env);
    ReportEnters(cfg, n, d, env);
    ReportHandlerDescends(cfg, m.to, d, m.vol, env);
    RunsTheEntry(cfg, m, env);
  }

  lemma RunsTheEntry(cfg: Config, m: Machine, env: Env)
    requires LeavePasses(m.cur.kind, m.to.kind, env) && m.to.kind.IsReporting()
    ensures var o := EnterState(cfg, Left(m), env); Next(cfg, m, Go(env)) == Machine(o.cur, o.next, o.disk, o.vol)
  {
    hide EnterState;
  }

  lemma LeftKeepsRoom(m: Machine)
    ensures NearLimit(Left(m)) == NearLimit(m) && Left(m).cur == m.cur && Left(m).to == m.to && Left(m).vol == m.vol
  {
  }

  lemma LimitIsFar(m: Machine, env: Env)
    requires StoreWorks(env) && Inv(m) && m.to.kind.IsReporting() && !NearLimit(m)
    ensures StoreNewState(m, env).1.Stored?
  {
    hide KindInv, InfoInv, DiskInv;
  }

  lemma ReportEnters(cfg: Config, m: Machine, d: Disk, env: Env)
    requires m.to.kind.IsReporting()
    ensures EnterAndHandle(cfg, m, d, env) == Handle(cfg, m.to, d, m.vol, env)
  {
    hide Handle;
  }

  /** How often a reporting sequence visits StatusReport, until it is over. */
  function Visits(cfg: Config, m: Machine, envs: seq<Env>): nat
    decreases |envs|
  {
    if envs == [] || !m.to.kind.IsReporting() then 0
    else (if m.to.kind.StatusReport? then 1 else 0) + Visits(cfg, Next(cfg, m, Go(envs[0])), envs[1..])
  }

  /** The visits that the counters of this state still allow. */
  function VisitsLeft(cfg: Config, k: Kind): nat {
    match k
    case StatusReport(_, tries, logTries) => SendsLeft(cfg, tries, logTries)
    case StatusReportRetry(_, spent, sends, logSends) =>
      if spent < MaxSends(cfg) then SendsLeft(cfg, sends, logSends) else 0
    case _ => 0
  }

  /** Log attempts are counted from zero, and a retry that goes on has some left. */
  predicate LogsLeft(cfg: Config, k: Kind) {
    match k
    case StatusReport(_, _, logTries) => logTries < MaxSends(cfg)
    case StatusReportRetry(_, spent, _, logSends) => spent < MaxSends(cfg) ==> logSends < MaxSends(cfg)
    case _ => true
  }

  lemma HandlerSpendsVisit(cfg: Config, s: State, d: Disk, vol: Volatile, env: Env)
    requires s.kind.IsReporting() && LogsLeft(cfg, s.kind)
    ensures var next := Handle(cfg, s, d, vol, env).next.kind;
            && LogsLeft(cfg, next)
            && VisitsLeft(cfg, next) + (if s.kind.StatusReport? then 1 else 0) <= VisitsLeft(cfg, s.kind)
  {
  }

  lemma {:induction false} ReadyVisits(cfg: Config, m: Machine, envs: seq<Env>)
    requires ReportReady(m) && LogsLeft(cfg, m.to.kind) && forall e :: e in envs ==> ScriptsFine(e)
    ensures Visits(cfg, m, envs) <= VisitsLeft(cfg, m.to.kind)
    decreases |envs|
  {
    hide Next, Inv, NearLimit, Handle;
    if envs != [] {
      assert ScriptsFine(envs[0]);
      ReportStep(cfg, m, envs[0]);
      var m' := Next(cfg, m, Go(envs[0]));
      var d :| var o := Handle(cfg, m.to, d, m.vol, envs[0]); m' == Machine(o.cur, o.next, d, o.vol);
      HandlerSpendsVisit(cfg, m.to, d, m.vol, envs[0]);
      if !m'.to.kind.Idle? { ReadyVisits(cfg, m', envs[1..]); }
    }
  }

  /** The step in which the loop limit fires leaves a report that starts over, far from the limit. */
  lemma FiringStep(cfg: Config, m: Machine, env: Env)
    requires ReportDue(m) && ScriptsFine(env) && CountFor(m.disk.db, m.to.info) >= MAX_STORE_COUNT
    ensures var m' := Next(cfg, m, Go(env)); ReportReady(m') && m'.to.kind == StatusReport(false, 0, 0)
  {
    hide HandleError, KindInv, InfoInv, DiskInv, TransitionState, EnterAndHandle, StoreNewState;
    ReportLeavePasses(m.cur.kind, m.to.kind, env);
    NextKeepsInv(cfg, m, Go(env));
    LeftKeepsInv(m);
    LeftSameCount(m);
    var n := Left(m);
    EntryCounts(n, env);
    ReportEntryCounts(n, env);
    LimitOutcome(n, env);
    RunsTheEntry(cfg, m, env);
  }

  lemma LeftSameCount(m: Machine)
    ensures Left(m).disk.db == m.disk.db && Left(m).cur == m.cur && Left(m).to == m.to && Left(m).vol == m.vol
  {
  }

  /** The step that brings the count to the limit leaves a retry, or ends the report. */
  lemma LastCountedStep(cfg: Config, m: Machine, env: Env)
    requires ReportDue(m) && ScriptsFine(env) && NearLimit(m) && CountFor(m.disk.db, m.to.info) < MAX_STORE_COUNT
    ensures var m' := Next(cfg, m, Go(env));
            m'.to.kind.Idle?
            || (ReportDue(m') && m'.to.kind.StatusReportRetry?
                && CountFor(m'.disk.db, m'.to.info) >= MAX_STORE_COUNT)
    ensures m.to.kind.StatusReport?
  {
    hide Handle, HandleError, KindInv, InfoInv, DiskInv, TransitionState, EnterAndHandle;
    ReportLeavePasses(m.cur.kind, m.to.kind, env);
    NextKeepsInv(cfg, m, Go(env));
    LeftKeepsInv(m);
    LeftSameCount(m);
    var n := Left(m);
    ReportEntryCounts(n, env);
    var (d, r) := StoreNewState(n, env);
    StoredBelowLimit(n, env);
    ReportEnters(cfg, n, d, env);
    ReportHandlerDescends(cfg, m.to, d, m.vol, env);
    RunsTheEntry(cfg, m, env);
  }

  lemma StoredBelowLimit(m: Machine, env: Env)
    requires StoreWorks(env) && Inv(m) && m.to.kind.IsReporting() && CountFor(m.disk.db, m.to.info) < MAX_STORE_COUNT
    ensures StoreNewState(m, env).1.Stored?
  {
    hide KindInv, InfoInv, DiskInv;
  }

  /** The limit fires at most once in a reporting sequence, at its first or second store. */
  lemma {:induction false} NearVisits(cfg: Config, m: Machine, envs: seq<Env>)
    requires ReportDue(m) && NearLimit(m) && forall e :: e in envs ==> ScriptsFine(e)
    ensures Visits(cfg, m, envs) <= (if m.to.kind.StatusReport? then 1 else 0) + 2 * MaxSends(cfg) - 1
    decreases |envs|
  {
    hide Next, Inv, Handle, CountFor;
    MaxSendsValues(cfg);
    if envs != [] {
      assert ScriptsFine(envs[0]);
      var m' := Next(cfg, m, Go(envs[0]));
      if CountFor(m.disk.db, m.to.info) >= MAX_STORE_COUNT {
        FiringStep(cfg, m, envs[0]);
        ReadyVisits(cfg, m', envs[1..]);
      } else {
        LastCountedStep(cfg, m, envs[0]);
        if !m'.to.kind.Idle? { NearVisits(cfg, m', envs[1..]); }
      }
    }
  }

  /**
   One reporting sequence without restarts visits StatusReport at most as often as its
   counters allow: 2M - 1 times when it starts fresh, M being MaxSends, however report
   and log failures interleave; and at most 2M times when it starts near the loop limit.
   */
  lemma VisitsAreBounded(cfg: Config, m: Machine, envs: seq<Env>)
    requires ReportDue(m) && LogsLeft(cfg, m.to.kind) && forall e :: e in envs ==> ScriptsFine(e)
    ensures !NearLimit(m) ==> Visits(cfg, m, envs) <= VisitsLeft(cfg, m.to.kind)
    ensures !NearLimit(m) && m.to.kind.StatusReport? && m.to.kind.tries == 0 && m.to.kind.logTries == 0 ==>
              Visits(cfg, m, envs) <= 2 * MaxSends(cfg) - 1
    ensures NearLimit(m) ==> Visits(cfg, m, envs) <= 2 * MaxSends(cfg)
  {
    hide Next, Inv, NearLimit, Visits;
    MaxSendsValues(cfg);
    if NearLimit(m) { NearVisits(cfg, m, envs); } else { ReadyVisits(cfg, m, envs); }
  }

  // --------------------------------------------------------- the bound is sharp

  const REPORT_FAILS := Calm().(report := Transient)
  const LOGS_FAIL := Calm().(logs := Transient)

  /** First every report fails, then every log upload. */
  function WorstEnv(cfg: Config, tries: nat): Env {
    if tries + 1 < MaxSends(cfg) then REPORT_FAILS else LOGS_FAIL
  }

  lemma WorstVisit(cfg: Config, m: Machine)
    requires ReportReady(m) && m.to.kind.StatusReport? && !m.to.kind.success && m.to.kind.logTries < MaxSends(cfg)
    requires m.to.kind.tries + 1 < MaxSends(cfg) ==> m.to.kind.logTries == 0
    ensures var k := m.to.kind;
            var m1 := Next(cfg, m, Go(WorstEnv(cfg, k.tries)));
            && ReportReady(m1) && m1.to.kind.StatusReportRetry? && !m1.to.kind.success
              && m1.to.kind.sends == k.tries + 1
            && (if k.tries + 1 < MaxSends(cfg) then m1.to.kind.spent == k.tries + 1 && m1.to.kind.logSends == k.logTries
                else m1.to.kind.spent == m1.to.kind.logSends == k.logTries + 1)
  {
    hide Next, Inv, NearLimit;
    ReportStep(cfg, m, WorstEnv(cfg, m.to.kind.tries));
  }

  lemma WorstWait(cfg: Config, m: Machine)
    requires ReportReady(m) && m.to.kind.StatusReportRetry? && m.to.kind.spent < MaxSends(cfg)
    ensures var k := m.to.kind;
            var m1 := Next(cfg, m, Go(Calm()));
            ReportReady(m1) && m1.to.kind == StatusReport(k.success, k.sends, k.logSends)
  {
    hide Next, Inv, NearLimit;
    ReportStep(cfg, m, Calm());
  }

  /** Some sequence of answers uses up every visit of a failure report. */
  lemma {:induction false} WorstRun(cfg: Config, m: Machine) returns (envs: seq<Env>)
    requires ReportReady(m) && m.to.kind.StatusReport? && !m.to.kind.success && m.to.kind.logTries < MaxSends(cfg)
    requires m.to.kind.tries + 1 < MaxSends(cfg) ==> m.to.kind.logTries == 0
    ensures (forall e :: e in envs ==> ScriptsFine(e)) && Visits(cfg, m, envs) == VisitsLeft(cfg, m.to.kind)
    decreases VisitsLeft(cfg, m.to.kind)
  {
    hide Next, Inv, NearLimit, ReportReady;
    var k := m.to.kind;
    var e := WorstEnv(cfg, k.tries);
    WorstVisit(cfg, m);
    var m1 := Next(cfg, m, Go(e));
    if m1.to.kind.spent < MaxSends(cfg) {
      WorstWait(cfg, m1);
      var m2 := Next(cfg, m1, Go(Calm()));
      var rest := WorstRun(cfg, m2);
      envs := [e, Calm()] + rest;
      assert envs[1..] == [Calm()] + rest && envs[1..][1..] == rest;
      assert Visits(cfg, m1, envs[1..]) == Visits(cfg, m2, rest);
    } else {
      envs := [e];
      assert envs[1..] == [];
      assert Visits(cfg, m1, envs[1..]) == 0;
    }
  }

  lemma BoundIsSharp(cfg: Config, m: Machine)
    requires ReportReady(m) && m.to.kind == StatusReport(false, 0, 0)
    ensures exists envs :: (forall e :: e in envs ==> ScriptsFine(e)) && Visits(cfg, m, envs) == 2 * MaxSends(cfg) - 1
  {
    hide Next, Inv, NearLimit;
    MaxSendsValues(cfg);
    var envs := WorstRun(cfg, m);
  }
}
