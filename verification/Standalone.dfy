/**
 Updates from the command line (app/standalone.go): install, commit and roll back
 without a server. What matters afterwards is the artifact name in the database: the
 new one, the old one, or the new one with the broken suffix.
 */
module Standalone {
  import opened Wrappers
  import StateData
  import opened Datastore
  import Provides

  /** The artifact being installed; name is what a successful commit stores. */
  datatype Data = Data(name: string, group: string, newProvides: Option<map<string, string>>,
      clears: Option<seq<string>>, payloads: nat)

  /** The database: what is installed, and the installation that waits for a commit. */
  datatype World = World(artifact: Artifact, pending: Option<Data>)

  /** How scripts, payloads and the database answer during one command. */
  datatype Answers = Answers(
    download: Download,
    support: seq<Option<bool>>, laterSupport: seq<Option<bool>>,   // asked before, and after a failure
    installEnter: bool, installs: seq<bool>, installLeave: bool, reboots: seq<Option<bool>>,
    recorded: bool, restored: bool,
    commitEnter: bool, commits: seq<bool>, commitLeave: bool,
    rollbackEnter: bool, rollbacks: seq<bool>, rollbackLeave: bool,
    failureEnter: bool, failures: seq<bool>, failureLeave: bool,
    cleanups: seq<bool>, written: bool)

  /** Refused: nothing has been done yet, so nothing is cleaned up. */
  datatype Download = Refused | Aborted | Stored

  predicate Ok(results: seq<bool>, n: nat) { n < |results| && results[n] }

  predicate AllOk(results: seq<bool>, count: nat) { forall n: nat :: n < count ==> Ok(results, n) }

  lemma AllOkIs(results: seq<bool>, count: nat)
    ensures AllOk(results, count) <==> count <= |results| && forall n :: 0 <= n < count ==> results[n]
  {
    if AllOk(results, count) {
      assert count > |results| ==> !Ok(results, |results|);
      forall n | 0 <= n < count ensures results[n] { assert Ok(results, n); }
    }
  }

  // ------------------------------------------------------ what is promised

  /** All payloads agree on whether they can be rolled back; None if they do not, or one cannot tell. */
  ghost function Support(answers: seq<Option<bool>>, count: nat): Option<bool> {
    if count == 0 then Some(false)
    else if forall n: nat :: n < count ==> SupportAnswer(answers, n) == Some(true) then Some(true)
    else if forall n: nat :: n < count ==> SupportAnswer(answers, n) == Some(false) then Some(false)
    else None
  }

  function SupportAnswer(answers: seq<Option<bool>>, n: nat): Option<bool> {
    if n < |answers| then answers[n] else None
  }

  function RebootAnswer(a: Answers, n: nat): Option<bool> { if n < |a.reboots| then a.reboots[n] else None }

  predicate RolledBack(a: Answers, count: nat) { a.rollbackEnter && AllOk(a.rollbacks, count) && a.rollbackLeave }

  predicate FailureHandled(a: Answers, count: nat) { a.failureEnter && AllOk(a.failures, count) && a.failureLeave }

  /** Some payload reports an error before any says that it needs a reboot. */
  ghost predicate RebootUnknown(a: Answers, count: nat) {
    exists n: nat :: n < count && RebootAnswer(a, n).None? && forall k: nat :: k < n ==>
      RebootAnswer(a, k) == Some(false)
  }

  predicate InstallsFine(a: Answers, count: nat) { a.installEnter && AllOk(a.installs, count) && a.installLeave }

  predicate Committed(a: Answers, count: nat) { a.commitEnter && AllOk(a.commits, count) }

  /** What a finished command leaves in place of the old name. */
  datatype Verdict = OldName | NewName | BrokenName

  /** No step after the failure reports an error; a rollback takes place where it is possible. */
  ghost predicate FailureQuiet(a: Answers, count: nat) {
    && Support(a.laterSupport, count).Some? && FailureHandled(a, count)
    && (Support(a.laterSupport, count) == Some(true) ==> RolledBack(a, count))
  }

  /** Everything from the failure on could be undone, and no failure step reported an error. */
  ghost predicate Undone(a: Answers, count: nat) {
    Support(a.laterSupport, count) == Some(true) && FailureQuiet(a, count)
  }

  /** After a failure the old name stays only if everything could be undone. */
  ghost function AfterFailure(a: Answers, count: nat): Verdict {
    if Undone(a, count) then OldName else BrokenName
  }

  ghost function AfterCommit(a: Answers, count: nat): Verdict {
    if !Committed(a, count) then AfterFailure(a, count) else if a.commitLeave then NewName else BrokenName
  }

  /** The installation goes on to a commit or waits for one. */
  ghost predicate Installed(a: Answers, count: nat) {
    a.download.Stored? && Support(a.support, count).Some? && InstallsFine(a, count) && !RebootUnknown(a, count)
  }

  /** Nothing at all is reported as an error. */
  ghost predicate CommitSucceeds(a: Answers, count: nat) {
    AfterCommit(a, count) == NewName && AllOk(a.cleanups, count) && a.written
  }

  function Named(d: Data, name: string): ArtifactCommit { ArtifactCommit(name, d.group, d.newProvides, d.clears) }

  /** The cleanup transaction: the pending record goes, and the verdict's name and provides are written. */
  function Finish(w: World, d: Data, v: Verdict, matches: Matcher, written: bool): World {
    if !written then w
    else World(match v
               case OldName => w.artifact
               case NewName =>
                 if d.name == "" then w.artifact else CommittedArtifact(w.artifact, Named(d, d.name), matches)
               case BrokenName => CommittedArtifact(w.artifact, Named(d, d.name + StateData.BROKEN_SUFFIX), matches),
               None)
  }

  ghost function CommitEnds(w: World, d: Data, a: Answers, matches: Matcher): World {
    Finish(w, d, AfterCommit(a, d.payloads), matches, a.written)
  }

  ghost function Commit(w: World, a: Answers, matches: Matcher): World {
    if w.pending.None? || !a.restored then w else CommitEnds(w, w.pending.value, a, matches)
  }

  ghost function Rollback(w: World, a: Answers, matches: Matcher): World {
    if w.pending.None? || !a.restored || Support(a.support, w.pending.value.payloads) != Some(true) then w
    else
      var d := w.pending.value;
      Finish(w, d, if RolledBack(a, d.payloads) then OldName else BrokenName, matches, a.written)
  }

  ghost function Install(w: World, d: Data, a: Answers, matches: Matcher): World {
    if a.download.Refused? then w
    else if a.download.Aborted? || Support(a.support, d.payloads).None? then Finish(w, d, OldName, matches, a.written)
    else if !InstallsFine(a, d.payloads) || RebootUnknown(a, d.payloads) then
      Finish(w, d, AfterFailure(a, d.payloads), matches, a.written)
    else if !a.recorded then w
    else
      var w1 := w.(pending := Some(d));
      if Support(a.support, d.payloads) == Some(true) then w1 else Commit(w1, a, matches)
  }

  // ------------------------------------------------------------ the commands

  /** Asks every payload; an error is remembered, and the others are still asked. */
  method EachPayload(results: seq<bool>, count: nat) returns (firstErr: bool)
    ensures firstErr <==> !AllOk(results, count)
    ensures !firstErr <==> count <= |results| && forall n :: 0 <= n < count ==> results[n]
  {
    AllOkIs(results, count);
    firstErr := false;
    var i := 0;
    while i < count
      invariant 0 <= i <= count && (firstErr <==> !AllOk(results, i))
    {
      if !Ok(results, i) { firstErr := true; }
      i := i + 1;
    }
  }

  /** Asks the payloads until one reports an error. */
  method UntilError(results: seq<bool>, count: nat) returns (err: bool)
    ensures err <==> !AllOk(results, count)
    ensures !err <==> count <= |results| && forall n :: 0 <= n < count ==> results[n]
  {
    AllOkIs(results, count);
    var i := 0;
    while i < count
      invariant 0 <= i <= count && AllOk(results, i)
    {
      if !Ok(results, i) { return true; }
      i := i + 1;
    }
    err := false;
  }

  method DetermineRollbackSupport(answers: seq<Option<bool>>, count: nat) returns (supported: Option<bool>)
    ensures supported == Support(answers, count)
  {
    if count == 0 { return Some(false); }
    var support := StateData.SupportUnknown;
    var i := 0;
    while i < count
      invariant 0 <= i <= count
      invariant i == 0 <==> support.SupportUnknown?
      invariant i > 0 ==> forall n: nat :: n < i ==> SupportAnswer(answers, n) == Some(support.Supported?)
    {
      var answer := SupportAnswer(answers, i);
      if answer.None? { return None; }
      var value := if answer.value then StateData.Supported else StateData.NotSupported;
      var next := StateData.SetSupport(support, value);
      if next.None? {
        assert SupportAnswer(answers, 0) != SupportAnswer(answers, i);
        return None;
      }
      support := next.value;
      i := i + 1;
    }
    assert SupportAnswer(answers, 0) == Some(support.Supported?);
    supported := Some(support.Supported?);
  }

  method DetermineRebootNeeded(a: Answers, count: nat) returns (needed: Option<bool>)
    ensures needed.None? <==> RebootUnknown(a, count)
    // the first payload that does not say no decides
    ensures needed == Some(false) <==> forall n: nat :: n < count ==> RebootAnswer(a, n) == Some(false)
  {
    var i := 0;
    while i < count
      invariant 0 <= i <= count
      invariant forall k: nat :: k < i ==> RebootAnswer(a, k) == Some(false)
    {
      var answer := RebootAnswer(a, i);
      if answer.None? { return None; }
      if answer.value { return Some(true); }
      i := i + 1;
    }
    needed := Some(false);
  }

  /** standaloneData: the name to commit is rewritten on the way; the empty name means to keep the old one. */
  class StandaloneData {
    const data: Data
    var artifactName: string

    constructor (data: Data)
      ensures this.data == data && artifactName == data.name
    {
      this.data, artifactName := data, data.name;
    }

    /** The name in hand stands for this verdict. */
    predicate Says(v: Verdict)
      reads this
    {
      match v
      case OldName => artifactName == ""
      case NewName => artifactName == data.name
      case BrokenName => artifactName == data.name + StateData.BROKEN_SUFFIX
    }
  }

  class Device {
    const matches: Matcher
    var artifact: Artifact
    var pending: Option<Data>

    constructor (w: World, matches: Matcher)
      ensures State() == w && this.matches == matches
    {
      artifact, pending, this.matches := w.artifact, w.pending, matches;
    }

    function State(): World
      reads this
    {
      World(artifact, pending)
    }

    method RollbackState(sd: StandaloneData, a: Answers) returns (firstErr: bool)
      ensures firstErr <==> !RolledBack(a, sd.data.payloads)
    {
      firstErr := !a.rollbackEnter;
      var err := EachPayload(a.rollbacks, sd.data.payloads);
      if err { firstErr := true; }
      if !a.rollbackLeave { firstErr := true; }
    }

    method FailureState(sd: StandaloneData, a: Answers) returns (firstErr: bool)
      ensures firstErr <==> !FailureHandled(a, sd.data.payloads)
    {
      firstErr := !a.failureEnter;
      var err := EachPayload(a.failures, sd.data.payloads);
      if err { firstErr := true; }
      if !a.failureLeave { firstErr := true; }
    }

    method Cleanup(sd: StandaloneData, a: Answers, ghost v: Verdict) returns (firstErr: bool)
      requires sd.Says(v)
      modifies this
      ensures State() == Finish(old(State()), sd.data, v, matches, a.written)
      ensures firstErr <==> !AllOk(a.cleanups, sd.data.payloads) || !a.written
    {
      firstErr := EachPayload(a.cleanups, sd.data.payloads);
      if a.written {
        pending := None;
        if sd.artifactName != "" { artifact := CommittedArtifact(artifact, Named(sd.data, sd.artifactName), matches); }
      } else {
        firstErr := true;
      }
    }

    /** Undoes what can be undone, and decides on the name. */
    method FailureStates(sd: StandaloneData, a: Answers, rollback: bool, failure: bool) returns (firstErr: bool)
      requires sd.Says(NewName)
      modifies sd
      ensures rollback && failure ==> (firstErr <==> !FailureQuiet(a, sd.data.payloads))
      ensures rollback && failure ==> sd.Says(AfterFailure(a, sd.data.payloads))
      ensures !rollback && failure ==> sd.Says(BrokenName)
      ensures !rollback && !failure ==> sd.Says(OldName)
    {
      firstErr := false;
      var rollbackSupport := false;
      if rollback {
        var supported := DetermineRollbackSupport(a.laterSupport, sd.data.payloads);
        if supported.None? {
          firstErr := true;
        } else if supported.value {
          rollbackSupport := true;
          firstErr := RollbackState(sd, a);
        }
      }
      if failure {
        var err := FailureState(sd, a);
        if err { firstErr := true; }
      }
      if firstErr || (failure && (!rollback || !rollbackSupport)) {
        sd.artifactName := sd.artifactName + StateData.BROKEN_SUFFIX;
      } else if rollback || !failure {
        sd.artifactName := "";
      }
    }

    /** The same, followed by the cleanup. */
    method FailAndCleanUp(sd: StandaloneData, a: Answers)
      requires sd.Says(NewName)
      modifies sd, this
      ensures State() == Finish(old(State()), sd.data, AfterFailure(a, sd.data.payloads), matches, a.written)
    {
      var _ := FailureStates(sd, a, true, true);
      var _ := Cleanup(sd, a, AfterFailure(a, sd.data.payloads));
    }

    method CommitStates(sd: StandaloneData, a: Answers) returns (ok: bool)
      requires sd.Says(NewName)
      modifies sd, this
      ensures State() == CommitEnds(old(State()), sd.data, a, matches)
      ensures ok <==> CommitSucceeds(a, sd.data.payloads)
    {
      var failed := !a.commitEnter;
      if !failed { failed := UntilError(a.commits, sd.data.payloads); }
      if failed {
        FailAndCleanUp(sd, a);
        return false;
      }
      ok := a.commitLeave;
      if !a.commitLeave { sd.artifactName := sd.artifactName + StateData.BROKEN_SUFFIX; }
      var err := Cleanup(sd, a, AfterCommit(a, sd.data.payloads));
      if err { ok := false; }
    }

    method DoStandaloneCommit(a: Answers) returns (ok: bool)
      modifies this
      ensures State() == Commit(old(State()), a, matches)
      ensures ok <==>
                && old(pending).Some? && a.restored && a.written
                && var n := old(pending).value.payloads;
                   a.commitEnter && AllOk(a.commits, n) && a.commitLeave && AllOk(a.cleanups, n)
    {
      if pending.None? || !a.restored { return false; }
      var sd := new StandaloneData(pending.value);
      ok := CommitStates(sd, a);
    }

    method DoStandaloneRollback(a: Answers) returns (ok: bool)
      modifies this
      ensures State() == Rollback(old(State()), a, matches)
      ensures ok <==>
                && old(pending).Some? && a.restored
                && var n := old(pending).value.payloads;
                   && n > 0 && Everyone(a.support, n, true)
                   && a.rollbackEnter && AllOk(a.rollbacks, n) && a.rollbackLeave && AllOk(a.cleanups, n) && a.written
    {
      if pending.None? || !a.restored { return false; }
      var sd := new StandaloneData(pending.value);
      var supported := DetermineRollbackSupport(a.support, sd.data.payloads);
      RawAnswers(a, a.support, sd.data.payloads);
      if supported != Some(true) { return false; }
      var firstErr := RollbackState(sd, a);
      if !firstErr {
        sd.artifactName := "";
      } else {
        var _ := FailureStates(sd, a, false, true);
      }
      var err := Cleanup(sd, a, if RolledBack(a, sd.data.payloads) then OldName else BrokenName);
      ok := !firstErr && !err;
    }

    method DoStandaloneInstall(d: Data, a: Answers) returns (ok: bool)
      modifies this
      ensures State() == Install(old(State()), d, a, matches)
      ensures ok <==>
                && a.download.Stored? && InstalledCleanly(a, d.payloads) && a.recorded
                && (|| (d.payloads > 0 && Everyone(a.support, d.payloads, true))
                    || (&& Everyone(a.support, d.payloads, false) && a.restored && a.written
                        && a.commitEnter && AllOk(a.commits, d.payloads) && a.commitLeave
                        && AllOk(a.cleanups, d.payloads)))
    {
      hide Everyone, InstalledCleanly;
      RawAnswers(a, a.support, d.payloads);
      if a.download.Refused? { return false; }
      var sd := new StandaloneData(d);
      var supported := DetermineRollbackSupport(a.support, d.payloads);
      if a.download.Aborted? || supported.None? {
        var _ := FailureStates(sd, a, false, false);
        var _ := Cleanup(sd, a, OldName);
        return false;
      }
      var failed := !a.installEnter;
      if !failed { failed := UntilError(a.installs, d.payloads); }
      if failed || !a.installLeave {
        FailAndCleanUp(sd, a);
        return false;
      }
      var rebootNeeded := DetermineRebootNeeded(a, d.payloads);
      if rebootNeeded.None? {
        FailAndCleanUp(sd, a);
        return false;
      }
      if !a.recorded { return false; }
      pending := Some(d);
      ok := true;
      if !supported.value { ok := DoStandaloneCommit(a); }
    }
  }

  // --------------------------------------------------- which name is stored

  /** An artifact name that can be told apart from what is stored now. */
  predicate Fresh(w: World, d: Data) {
    d.name != "" && w.artifact.name != Some(d.name) && w.artifact.name != Some(d.name + StateData.BROKEN_SUFFIX)
  }

  lemma SuffixChangesName(name: string)
    ensures name + StateData.BROKEN_SUFFIX != name && name + StateData.BROKEN_SUFFIX != ""
  {
    assert |name + StateData.BROKEN_SUFFIX| == |name| + 1;
  }

  /**
   After an install, with a database that works: the new name exactly if there is no
   rollback and the immediate commit succeeded, scripts included; the old name exactly
   if nothing was begun, everything could be undone, or the commit is still to come.
   */
  lemma InstallNameExactly(w: World, d: Data, a: Answers, matches: Matcher)
    requires Fresh(w, d) && a.written && a.recorded && a.restored
    ensures var name := Install(w, d, a, matches).artifact.name;
            var n := d.payloads;
            && (name == w.artifact.name || name == Some(d.name) || name == Some(d.name + StateData.BROKEN_SUFFIX))
            && (name == Some(d.name) <==>
                  Installed(a, n) && Support(a.support, n) == Some(false) && Committed(a, n) && a.commitLeave)
            && (name == w.artifact.name <==>
                  || !a.download.Stored? || Support(a.support, n).None?
                  || (if Installed(a, n) then Support(a.support, n) == Some(true) || (!Committed(a, n) && Undone(a, n))
                      else Undone(a, n)))
  {
    SuffixChangesName(d.name);
  }

  /** After a commit of what was pending. */
  lemma CommitNameExactly(w: World, a: Answers, matches: Matcher)
    requires w.pending.Some? && Fresh(w, w.pending.value) && a.written && a.restored
    ensures var d := w.pending.value;
            var w' := Commit(w, a, matches);
            && w'.pending.None?
            && (w'.artifact.name == Some(d.name) <==> Committed(a, d.payloads) && a.commitLeave)
            && (w'.artifact.name == w.artifact.name <==> !Committed(a, d.payloads) && Undone(a, d.payloads))
            && (w'.artifact.name == w.artifact.name || w'.artifact.name == Some(d.name)
                || w'.artifact.name == Some(d.name + StateData.BROKEN_SUFFIX))
  {
    SuffixChangesName(w.pending.value.name);
  }

  /** After a rollback of what was pending, where it is possible. */
  lemma RollbackNameExactly(w: World, a: Answers, matches: Matcher)
    requires w.pending.Some? && Fresh(w, w.pending.value) && a.written && a.restored
    requires Support(a.support, w.pending.value.payloads) == Some(true)
    ensures var d := w.pending.value;
            var w' := Rollback(w, a, matches);
            && w'.pending.None? && w'.artifact.name != Some(d.name)
            && (w'.artifact == w.artifact <==> RolledBack(a, d.payloads))
            && (w'.artifact.name == Some(d.name + StateData.BROKEN_SUFFIX) <==> !RolledBack(a, d.payloads))
  {
    SuffixChangesName(w.pending.value.name);
  }

  // -------------------------------------- what one command, or two, leave behind

  /** All payloads give this same answer. */
  predicate Everyone(answers: seq<Option<bool>>, count: nat, value: bool) {
    forall n: nat :: n < count ==> Gives(answers, n, value)
  }

  predicate Gives(answers: seq<Option<bool>>, n: nat, value: bool) { n < |answers| && answers[n] == Some(value) }

  /** Every script and every payload of the installation succeeds, and no payload is at a loss about its reboot. */
  predicate InstalledCleanly(a: Answers, count: nat) {
    && a.installEnter && AllOk(a.installs, count) && a.installLeave
    && forall n: nat :: n < count && Everyone(a.reboots, n, false) ==> n < |a.reboots| && a.reboots[n].Some?
  }

  /** What follows a failure takes everything back, without an error of its own. */
  predicate TakenBack(a: Answers, count: nat) {
    && count > 0 && Everyone(a.laterSupport, count, true)
    && a.rollbackEnter && AllOk(a.rollbacks, count) && a.rollbackLeave
    && a.failureEnter && AllOk(a.failures, count) && a.failureLeave
  }

  /** The device is called by this name, and provides what the artifact says under every key. */
  ghost predicate Carries(before: Artifact, after: Artifact, d: Data, name: string, matches: Matcher) {
    var c := ArtifactCommit(name, d.group, d.newProvides, d.clears);
    && after.name == Some(name)
    && after.group == (if d.group != "" then Some(d.group)
                       else if d.clears.None? || matches("artifact_group", d.clears.value) then None
                       else before.group)
    && (Provides.ReservedAgree(before, c, matches) ==>
          forall k :: Provides.OverridesAt(LoadProvides(before), LoadProvides(after), c, k, matches))
  }

  lemma CommitCarries(before: Artifact, d: Data, name: string, matches: Matcher)
    ensures Carries(before, CommittedArtifact(before, Named(d, name), matches), d, name, matches)
  {
    Provides.CommitOverrides(before, Named(d, name), matches);
  }

  lemma RawAnswers(a: Answers, answers: seq<Option<bool>>, count: nat)
    ensures Support(answers, count) == Some(true) <==> count > 0 && Everyone(answers, count, true)
    ensures Support(answers, count) == Some(false) <==> Everyone(answers, count, false)
    ensures Support(answers, count).None? <==>
              !Everyone(answers, count, false) && !(count > 0 && Everyone(answers, count, true))
    ensures InstallsFine(a, count) && !RebootUnknown(a, count) <==> InstalledCleanly(a, count)
  {
    forall n: nat, v: bool ensures Gives(answers, n, v) <==> SupportAnswer(answers, n) == Some(v) {}
    if count > 0 { assert Gives(answers, 0, true) ==> !Gives(answers, 0, false); }
    KnownReboots(a, count);
  }

  lemma KnownReboots(a: Answers, count: nat)
    ensures InstallsFine(a, count) && !RebootUnknown(a, count) <==> InstalledCleanly(a, count)
  {
    forall n: nat ensures Gives(a.reboots, n, false) <==> RebootAnswer(a, n) == Some(false) {}
    if RebootUnknown(a, count) {
      var n: nat :| n < count && RebootAnswer(a, n).None?
        && forall k: nat :: k < n ==> RebootAnswer(a, k) == Some(false);
      assert Everyone(a.reboots, n, false);
    } else {
      forall n: nat | n < count && Everyone(a.reboots, n, false) ensures n < |a.reboots| && a.reboots[n].Some? {
        assert RebootAnswer(a, n).Some?;
      }
    }
  }

  /**
   An installation that supports a rollback changes nothing that the device says about
   itself and waits; so does one that should be committed at once but cannot be restored
   or written. One that is refused, or not recorded, leaves no trace in the database.
   */
  lemma InstallWaitsExactly(w: World, d: Data, a: Answers, matches: Matcher)
    requires w.pending != Some(d)
    ensures var w' := Install(w, d, a, matches);
            var supports := d.payloads > 0 && Everyone(a.support, d.payloads, true);
            var agrees := supports || Everyone(a.support, d.payloads, false);
            var done := a.download.Stored? && agrees && InstalledCleanly(a, d.payloads);
            && (w'.pending == Some(d) <==> done && a.recorded && (supports || !a.restored || !a.written))
            && (w'.pending == Some(d) ==> w'.artifact == w.artifact)
            && (w'.pending != Some(d) ==> w' == w || (w'.pending.None? && a.written))
            && (a.download.Refused? || (done && !a.recorded) ==> w' == w)
  {
    hide Support, RebootUnknown, InstallsFine, Everyone, InstalledCleanly;
    RawAnswers(a, a.support, d.payloads);
  }

  /** A failed installation is taken back as a whole, or leaves the name and provides of a mixed device. */
  lemma FailedInstallLeaves(w: World, d: Data, a: Answers, matches: Matcher)
    requires !a.download.Refused? && a.written
    ensures var w' := Install(w, d, a, matches);
            var agrees := Everyone(a.support, d.payloads, true) || Everyone(a.support, d.payloads, false);
            && (a.download.Aborted? || !agrees ==> w' == World(w.artifact, None))
            && (a.download.Stored? && agrees && !InstalledCleanly(a, d.payloads) ==>
                  && w'.pending.None?
                  && (if TakenBack(a, d.payloads) then w'.artifact == w.artifact
                      else Carries(w.artifact, w'.artifact, d, d.name + "_", matches)))
  {
    hide Support, RebootUnknown, InstallsFine, Everyone, InstalledCleanly, Carries, CommittedArtifact;
    RawAnswers(a, a.support, d.payloads);
    RawAnswers(a, a.laterSupport, d.payloads);
    RawUndone(a, d.payloads);
    CommitCarries(w.artifact, d, d.name + "_", matches);
    NoPayloadsAgree(a.support);
  }

  lemma NoPayloadsAgree(answers: seq<Option<bool>>)
    ensures Everyone(answers, 0, false)
  {
  }

  lemma RawUndone(a: Answers, count: nat)
    ensures Undone(a, count) <==> TakenBack(a, count)
  {
    hide Support;
    RawAnswers(a, a.laterSupport, count);
  }

  /** What a commit that is restored and written leaves behind. */
  lemma CommitLeaves(w: World, a: Answers, matches: Matcher)
    requires w.pending.Some? && a.restored && a.written
    ensures var (w', d) := (Commit(w, a, matches), w.pending.value);
            && w'.pending.None?
            && (if !(a.commitEnter && AllOk(a.commits, d.payloads)) then
                  if TakenBack(a, d.payloads) then w'.artifact == w.artifact
                  else Carries(w.artifact, w'.artifact, d, d.name + "_", matches)
                else if !a.commitLeave then Carries(w.artifact, w'.artifact, d, d.name + "_", matches)
                else if d.name == "" then w'.artifact == w.artifact
                else Carries(w.artifact, w'.artifact, d, d.name, matches))
  {
    hide Undone, TakenBack, Carries, CommittedArtifact;
    var d := w.pending.value;
    RawUndone(a, d.payloads);
    CommitCarries(w.artifact, d, d.name, matches);
    CommitCarries(w.artifact, d, d.name + "_", matches);
  }

  /** What a rollback that is restored and written leaves behind, where it is possible. */
  lemma RollbackLeaves(w: World, a: Answers, matches: Matcher)
    requires w.pending.Some? && a.restored && a.written
    ensures var (w', d) := (Rollback(w, a, matches), w.pending.value);
            if d.payloads > 0 && Everyone(a.support, d.payloads, true) then
              && w'.pending.None?
              && (if a.rollbackEnter && AllOk(a.rollbacks, d.payloads) && a.rollbackLeave
                  then w'.artifact == w.artifact
                  else Carries(w.artifact, w'.artifact, d, d.name + "_", matches))
            else w' == w
  {
    hide Support, Carries, CommittedArtifact, Everyone;
    var d := w.pending.value;
    RawAnswers(a, a.support, d.payloads);
    CommitCarries(w.artifact, d, d.name + "_", matches);
  }

  /** With nothing pending, or nothing restored or written, neither changes anything. */
  lemma NothingPending(w: World, a: Answers, matches: Matcher)
    requires w.pending.None? || !a.restored || !a.written
    ensures Commit(w, a, matches) == w && Rollback(w, a, matches) == w
  {
    hide Support, AfterCommit, RolledBack;
  }

  /** One that does not support a rollback is committed by the same command. */
  lemma InstallCommitsAtOnce(w: World, d: Data, a: Answers, matches: Matcher)
    requires a.download.Stored? && a.recorded && Everyone(a.support, d.payloads, false)
    requires InstalledCleanly(a, d.payloads)
    ensures Install(w, d, a, matches) == Commit(World(w.artifact, Some(d)), a, matches)
  {
    hide Support, RebootUnknown, InstallsFine, Everyone, InstalledCleanly, Commit;
    RawAnswers(a, a.support, d.payloads);
  }

  /** Install, then commit: the device carries the new artifact, and nothing is pending any more. */
  lemma InstallThenCommit(w: World, d: Data, a: Answers, b: Answers, matches: Matcher)
    requires a.download.Stored? && a.recorded && d.payloads > 0 && Everyone(a.support, d.payloads, true)
    requires InstalledCleanly(a, d.payloads) && d.name != ""
    requires b.restored && b.written && b.commitEnter && AllOk(b.commits, d.payloads) && b.commitLeave
    ensures var w1 := Install(w, d, a, matches);
            var w2 := Commit(w1, b, matches);
            w1.artifact == w.artifact && w2.pending.None? && Carries(w.artifact, w2.artifact, d, d.name, matches)
  {
    hide Install, Commit, Carries, Support, RebootUnknown, InstallsFine, InstalledCleanly;
    InstallIsPending(w, d, a, matches);
    CommitLeaves(Install(w, d, a, matches), b, matches);
  }

  lemma InstallIsPending(w: World, d: Data, a: Answers, matches: Matcher)
    requires a.download.Stored? && a.recorded && d.payloads > 0 && Everyone(a.support, d.payloads, true)
    requires InstalledCleanly(a, d.payloads)
    ensures Install(w, d, a, matches) == World(w.artifact, Some(d))
  {
    hide Support, RebootUnknown, InstallsFine, Everyone, InstalledCleanly;
    RawAnswers(a, a.support, d.payloads);
  }

  /** Install, then roll back: the device is as it was, and nothing is pending any more. */
  lemma InstallThenRollback(w: World, d: Data, a: Answers, b: Answers, matches: Matcher)
    requires a.download.Stored? && a.recorded && d.payloads > 0 && Everyone(a.support, d.payloads, true)
    requires InstalledCleanly(a, d.payloads)
    requires b.restored && b.written && Everyone(b.support, d.payloads, true)
    requires b.rollbackEnter && AllOk(b.rollbacks, d.payloads) && b.rollbackLeave
    ensures Rollback(Install(w, d, a, matches), b, matches) == World(w.artifact, None)
  {
    hide Install, Rollback, Carries, Support, RebootUnknown, InstallsFine, InstalledCleanly;
    InstallIsPending(w, d, a, matches);
    RollbackLeaves(Install(w, d, a, matches), b, matches);
  }

  // ------------------------------------------------------------------- runs

  datatype Command = InstallCommand(d: Data, a: Answers) | CommitCommand(a: Answers) | RollbackCommand(a: Answers)

  ghost function Do(w: World, c: Command, matches: Matcher): World {
    match c
    case InstallCommand(d, a) => Install(w, d, a, matches)
    case CommitCommand(a) => Commit(w, a, matches)
    case RollbackCommand(a) => Rollback(w, a, matches)
  }

  ghost function Run(w: World, cs: seq<Command>, matches: Matcher): World
    decreases |cs|
  {
    if cs == [] then w else Run(Do(w, cs[0], matches), cs[1..], matches)
  }

  function PendingNames(w: World): set<string> { if w.pending.Some? then {w.pending.value.name} else {} }

  /** The names of all artifacts that the commands deal with. */
  function GivenNames(w: World, cs: seq<Command>): set<string> {
    PendingNames(w) + set c | c in cs && c.InstallCommand? :: c.d.name
  }

  /** The artifact that this command commits with all of its payloads and scripts succeeding. */
  ghost function CleanlyCommitted(w: World, c: Command): set<string> {
    var d := if c.InstallCommand? then Some(c.d) else w.pending;
    if d.Some? && !c.RollbackCommand? && Committed(c.a, d.value.payloads) && c.a.commitLeave then {d.value.name} else {}
  }

  ghost function CleanNames(w: World, cs: seq<Command>, matches: Matcher): set<string>
    decreases |cs|
  {
    if cs == [] then {} else CleanlyCommitted(w, cs[0]) + CleanNames(Do(w, cs[0], matches), cs[1..], matches)
  }

  ghost predicate NameFrom(name: Option<string>, start: Option<string>, clean: set<string>, given: set<string>) {
    name == start || (name.Some?
      && (name.value in clean || exists n :: n in given && name.value == n + StateData.BROKEN_SUFFIX))
  }

  lemma CommandNames(w: World, c: Command, matches: Matcher)
    ensures var w' := Do(w, c, matches);
            && PendingNames(w') <= GivenNames(w, [c])
            && NameFrom(w'.artifact.name, w.artifact.name, CleanlyCommitted(w, c), GivenNames(w, [c]))
  {
    hide Support, RolledBack, FailureHandled, RebootUnknown;
    if w.pending.Some? { assert w.pending.value.name in GivenNames(w, [c]); }
    if c.InstallCommand? { assert c in [c] && c.d.name in GivenNames(w, [c]); }
  }

  /**
   Over any sequence of commands, whatever fails: the stored name is the one there was,
   the name of an artifact that was committed without a single error, or the name of an
   artifact with the broken suffix once; the suffix is never added to itself.
   */
  lemma {:induction false} RunNames(w: World, cs: seq<Command>, matches: Matcher)
    ensures NameFrom(Run(w, cs, matches).artifact.name, w.artifact.name, CleanNames(w, cs, matches), GivenNames(w, cs))
    decreases |cs|
  {
    hide Do, CleanlyCommitted;
    if cs != [] {
      var w' := Do(w, cs[0], matches);
      CommandNames(w, cs[0], matches);
      RunNames(w', cs[1..], matches);
      GivenGrows(w, cs);
      assert GivenNames(w', cs[1..]) <= GivenNames(w, cs);
    }
  }

  lemma GivenGrows(w: World, cs: seq<Command>)
    requires cs != []
    ensures GivenNames(w, [cs[0]]) <= GivenNames(w, cs)
    ensures (set c | c in cs[1..] && c.InstallCommand? :: c.d.name) <= GivenNames(w, cs)
  {
    forall c | c in [cs[0]] ensures c in cs {}
    forall c | c in cs[1..] ensures c in cs {}
  }
}
