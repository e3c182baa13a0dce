/**
 Pools of update control maps over restarts (app/updatemanager.go). The pool is saved
 by every call, but not when a map expires, and a failed save is only logged; a restart
 does not save. What a restart finds is the last save that went through.
 */
module ControlMapRuns {
  import opened Wrappers
  import opened ControlMaps

  // ----------------------------------------------------------- the database

  /** The saved form: active maps first; which maps have expired is only told by the list they are in. */
  datatype Saved = Saved(active: seq<ControlMap>, expired: seq<ControlMap>)

  function Select(pool: seq<ControlMap>, expired: bool): seq<ControlMap> {
    if pool == [] then []
    else (if pool[0].expired == expired then [pool[0].(expired := false)] else []) + Select(pool[1..], expired)
  }

  function SavedForm(pool: seq<ControlMap>): Option<Saved> {
    if pool == [] then None else Some(Saved(Select(pool, false), Select(pool, true)))
  }

  function Decoded(maps: seq<ControlMap>, expired: bool): seq<ControlMap> {
    if maps == [] then [] else [Sanitize(maps[0]).(expired := expired)] + Decoded(maps[1..], expired)
  }

  /** What a pool saved by this agent decodes to. */
  lemma {:induction false} SavedDecodes(pool: seq<ControlMap>)
    requires AllProper(pool)
    ensures Decoded(Select(pool, false), false) == Collect(pool, ReloadActive)
    ensures Decoded(Select(pool, true), true) == Collect(pool, ReloadExpired)
    ensures forall m :: m in Select(pool, false) + Select(pool, true) ==> Validate(m)
  {
    hide Sanitize, Validate, Filled;
    if pool != [] {
      var m := pool[0];
      SavedDecodes(pool[1..]);
      FlagIsIndependent(m);
      var (same, other) := (Select(pool[1..], m.expired), Select(pool[1..], !m.expired));
      assert Select(pool, m.expired) == [m.(expired := false)] + same && Select(pool, !m.expired) == other;
      assert ([m.(expired := false)] + same)[1..] == same;
      assert Proper(m);
    }
  }

  predicate HoldsInvalid(s: Saved) { exists m :: m in s.active + s.expired && !Validate(m) }

  lemma FlagIsIndependent(m: ControlMap)
    ensures Sanitize(m.(expired := false)).(expired := m.expired) == Sanitize(m)
    ensures Validate(m.(expired := false)) <==> Validate(m)
  {
  }


  // ---------------------------------------------------------------- one restart

  /** What a new agent starts from: nothing if there is no record, or a map in it fails validation. */
  function Restored(saved: Option<Saved>): seq<ControlMap> {
    if saved.None? || HoldsInvalid(saved.value) then []
    else Decoded(saved.value.active, false) + Decoded(saved.value.expired, true)
  }

  /** Saving and loading a pool changes its order and drops inert rules, and nothing else. */
  lemma ReloadIsSame(pool: seq<ControlMap>)
    requires AllProper(pool)
    ensures Same(Restored(SavedForm(pool)), pool) && AllProper(Restored(SavedForm(pool)))
  {
    hide Collect, Proper, Same, Select, Decoded, Validate;
    if pool == [] {
      SameIsReflexive([]);
    } else {
      SavedDecodes(pool);
      HalvesAreSame(pool);
      CollectKeepsProper(pool, ReloadActive);
      CollectKeepsProper(pool, ReloadExpired);
    }
  }

  lemma SameIsReflexive(pool: seq<ControlMap>)
    ensures Same(pool, pool)
  {
  }

  // ------------------------------------------------------------------- runs

  /** The pool in memory and the saved one. */
  datatype World = World(pool: seq<ControlMap>, saved: Option<Saved>)

  /** A call or an expiry, with the outcome of the write; or a restart, with the outcome of the read. */
  datatype Step = Call(op: Op, ok: bool) | Restart(ok: bool)

  /** A step, what it left behind, and its answer if it was a query. */
  datatype Event = Event(step: Step, after: World, answer: Action)

  /** Every call saves, but an expiry only sets the map's flag. */
  predicate Saves(step: Step) { step.Call? && step.ok && !step.op.Expire? }

  ghost predicate Happens(w: World, e: Event) {
    match e.step
    case Call(op, ok) =>
      && multiset(e.after.pool) == multiset(Do(w.pool, op))
      && e.after.saved == (if Saves(e.step) then SavedForm(e.after.pool) else w.saved)
      && (op.Query? ==> e.answer == Answer(w.pool, op.state))
      && (Inserts(op) ==> Proper(op.m))
    case Restart(ok) =>
      e.after == World(if ok then Restored(w.saved) else [], w.saved)
  }

  ghost predicate Run(w: World, events: seq<Event>)
    decreases |events|
  {
    events == [] || (Happens(w, events[0]) && Run(events[0].after, events[1..]))
  }

  function End(w: World, events: seq<Event>): World {
    if events == [] then w else events[|events| - 1].after
  }

  predicate Sound(w: World) { AllProper(w.pool) && AllProper(Restored(w.saved)) }

  lemma EventKeepsSound(w: World, e: Event)
    requires Sound(w) && Happens(w, e)
    ensures Sound(e.after)
  {
    hide Do, AllProper, Proper, Answer, Restored, SavedForm;
    if e.step.Call? {
      OperationsKeepProper(w.pool, e.step.op, e.after.pool);
      ReloadIsSame(e.after.pool);
    } else {
      NoMapIsProper();
    }
  }

  lemma NoMapIsProper()
    ensures AllProper([])
  {
  }

  // ----------------------------------------------------------- one map per key

  lemma {:induction false} DecodedKeepsKeys(pool: seq<ControlMap>, id: string, priority: int)
    ensures KeyCount(Decoded(Select(pool, false), false), id, priority)
            + KeyCount(Decoded(Select(pool, true), true), id, priority) == KeyCount(pool, id, priority)
  {
    hide Sanitize;
    if pool != [] {
      var m := pool[0];
      DecodedKeepsKeys(pool[1..], id, priority);
      var (same, other) := (Select(pool[1..], m.expired), Select(pool[1..], !m.expired));
      assert Select(pool, m.expired) == [m.(expired := false)] + same && Select(pool, !m.expired) == other;
      DecodedFirst(m, same, id, priority);
    }
  }

  lemma DecodedFirst(m: ControlMap, rest: seq<ControlMap>, id: string, priority: int)
    ensures KeyCount(Decoded([m.(expired := false)] + rest, m.expired), id, priority)
            == (if HasKey(m, id, priority) then 1 else 0) + KeyCount(Decoded(rest, m.expired), id, priority)
  {
    var maps := [m.(expired := false)] + rest;
    assert maps[1..] == rest;
    var first := Sanitize(maps[0]).(expired := m.expired);
    assert ([first] + Decoded(rest, m.expired))[1..] == Decoded(rest, m.expired);
  }

  lemma RestoredKeepsKeysUnique(pool: seq<ControlMap>)
    requires UniqueKeys(pool)
    ensures UniqueKeys(Restored(SavedForm(pool)))
  {
    hide Select, Decoded, HoldsInvalid;
    forall id, priority ensures KeyCount(Restored(SavedForm(pool)), id, priority) <= 1 {
      if pool != [] {
        var (a, b) := (Decoded(Select(pool, false), false), Decoded(Select(pool, true), true));
        DecodedKeepsKeys(pool, id, priority);
        KeyCountConcat(a, b, id, priority);
      }
    }
  }

  lemma NoMapIsUnique()
    ensures UniqueKeys([])
  {
  }

  /** In every run, restarts, expiries and failed saves included, there is at most one map for each ID and priority. */
  lemma {:induction false} RunsKeepKeysUnique(w: World, events: seq<Event>)
    requires UniqueKeys(w.pool) && UniqueKeys(Restored(w.saved)) && Run(w, events)
    ensures UniqueKeys(End(w, events).pool) && UniqueKeys(Restored(End(w, events).saved))
    decreases |events|
  {
    hide UniqueKeys, Do, Restored, SavedForm, Answer;
    if events != [] {
      var e := events[0];
      if e.step.Call? {
        OperationsKeepKeysUnique(w.pool, e.step.op, e.after.pool);
        RestoredKeepsKeysUnique(e.after.pool);
      } else {
        NoMapIsUnique();
      }
      RunsKeepKeysUnique(e.after, events[1..]);
      assert End(e.after, events[1..]) == End(w, events);
    }
  }

  // ---------------------------------------------------- what a restart forgets

  /** A restart now would change nothing. */
  predicate Settled(w: World) { Same(Restored(w.saved), w.pool) }

  /** The pool as it was when it was last saved or loaded. */
  function LastKept(kept: seq<ControlMap>, events: seq<Event>): seq<ControlMap>
    decreases |events|
  {
    if events == [] then kept
    else LastKept(if Saves(events[0].step) || events[0].step == Restart(true) then events[0].after.pool else kept,
                  events[1..])
  }

  lemma {:induction false} RestoresLastKept(w: World, kept: seq<ControlMap>, events: seq<Event>)
    requires Sound(w) && Same(Restored(w.saved), kept) && Run(w, events)
    ensures Same(Restored(End(w, events).saved), LastKept(kept, events))
    decreases |events|
  {
    hide Same, Do, Sound, Restored, SavedForm, Answer, AllProper, Proper;
    if events != [] {
      var e := events[0];
      EventKeepsSound(w, e);
      SoundPoolIsProper(e.after);
      if Saves(e.step) { ReloadIsSame(e.after.pool); }
      SameIsReflexive(e.after.pool);
      RestoresLastKept(e.after, if Saves(e.step) || e.step == Restart(true) then e.after.pool else kept, events[1..]);
      assert End(e.after, events[1..]) == End(w, events);
    }
  }

  lemma SoundPoolIsProper(w: World)
    requires Sound(w)
    ensures AllProper(w.pool)
  {
  }

  /**
   After any run, a restart changes nothing if and only if the pool is, up to order and
   inert rules, what it was when it was last saved or loaded.
   */
  lemma RestartKeepsPoolExactly(w: World, events: seq<Event>)
    requires Sound(w) && Settled(w) && Run(w, events)
    ensures Settled(End(w, events)) <==> Same(LastKept(w.pool, events), End(w, events).pool)
  {
    hide Same, Run, Sound, Restored;
    RestoresLastKept(w, w.pool, events);
    var (kept, restored) := (LastKept(w.pool, events), Restored(End(w, events).saved));
    SameIsSymmetric(restored, kept);
    if Same(restored, End(w, events).pool) { SameIsTransitive(kept, restored, End(w, events).pool); }
    if Same(kept, End(w, events).pool) { SameIsTransitive(restored, kept, End(w, events).pool); }
  }

  predicate HoldsActive(pool: seq<ControlMap>, id: string, priority: int) {
    exists m :: m in pool && HasKey(m, id, priority) && !m.expired
  }

  function ActiveCount(pool: seq<ControlMap>): nat {
    if pool == [] then 0 else (if pool[0].expired then 0 else 1) + ActiveCount(pool[1..])
  }

  lemma {:induction false} ExpiryIsSame(pool: seq<ControlMap>, id: string, priority: int)
    requires !HoldsActive(pool, id, priority)
    ensures Collect(pool, ExpireKey(id, priority)) == pool
  {
    if pool != [] {
      assert forall m :: m in pool[1..] ==> m in pool;
      ExpiryIsSame(pool[1..], id, priority);
      assert pool[0] in pool;
      assert pool == [pool[0]] + pool[1..];
    }
  }

  lemma {:induction false} ActiveCountConcat(a: seq<ControlMap>, b: seq<ControlMap>)
    ensures ActiveCount(a + b) == ActiveCount(a) + ActiveCount(b)
  {
    if a == [] {
      assert a + b == b;
    } else {
      assert (a + b)[1..] == a[1..] + b;
      ActiveCountConcat(a[1..], b);
    }
  }

  lemma {:induction false} ActiveCountPermutes(a: seq<ControlMap>, b: seq<ControlMap>)
    requires multiset(a) == multiset(b)
    ensures ActiveCount(a) == ActiveCount(b)
  {
    if a == [] {
      assert |multiset(b)| == 0 && b == [];
    } else {
      var x, y := Extract(a, b);
      ActiveCountPermutes(a[1..], x + y);
      ActiveCountConcat(x + [a[0]], y);
      ActiveCountConcat(x, [a[0]]);
      ActiveCountConcat(x, y);
    }
  }

  lemma {:induction false} NormalizeKeepsActive(pool: seq<ControlMap>)
    ensures ActiveCount(Collect(pool, Normalize)) == ActiveCount(pool)
  {
    if pool != [] {
      NormalizeKeepsActive(pool[1..]);
      ActiveCountConcat([Norm(pool[0])], Collect(pool[1..], Normalize));
    }
  }

  lemma {:induction false} ExpiryTakesOne(pool: seq<ControlMap>, id: string, priority: int)
    ensures ActiveCount(Collect(pool, ExpireKey(id, priority))) <= ActiveCount(pool)
    ensures HoldsActive(pool, id, priority) ==>
              ActiveCount(Collect(pool, ExpireKey(id, priority))) < ActiveCount(pool)
  {
    if pool != [] {
      ExpiryTakesOne(pool[1..], id, priority);
      ActiveCountConcat(AsSeq(Passed(pool[0], ExpireKey(id, priority))), Collect(pool[1..], ExpireKey(id, priority)));
      assert pool == [pool[0]] + pool[1..];
    }
  }

  /** An expiry is forgotten by a restart if and only if it has made an active map expire. */
  lemma ExpiryIsLostExactly(w: World, e: Event)
    requires Sound(w) && Settled(w) && Happens(w, e) && e.step.Call? && e.step.op.Expire?
    ensures Settled(e.after) <==> !HoldsActive(w.pool, e.step.op.id, e.step.op.priority)
  {
    hide Sound, Same, Restored, HoldsActive;
    var Expire(id, priority) := e.step.op;
    var expired := Collect(w.pool, ExpireKey(id, priority));
    PermutationIsSame(e.after.pool, expired);
    SettledAfter(w, e.after, expired);
    if HoldsActive(w.pool, id, priority) {
      ExpiryTakesOne(w.pool, id, priority);
      if Same(w.pool, expired) { SameHasSameActive(w.pool, expired); }
    } else {
      ExpiryIsSame(w.pool, id, priority);
      SameIsReflexive(w.pool);
    }
  }

  lemma SameHasSameActive(a: seq<ControlMap>, b: seq<ControlMap>)
    requires Same(a, b)
    ensures ActiveCount(a) == ActiveCount(b)
  {
    hide Collect, ActiveCount;
    ActiveCountPermutes(Collect(a, Normalize), Collect(b, Normalize));
    NormalizeKeepsActive(a);
    NormalizeKeepsActive(b);
  }

  lemma SettledAfter(w: World, after: World, pool: seq<ControlMap>)
    requires Settled(w) && after.saved == w.saved && Same(after.pool, pool)
    ensures Settled(after) <==> Same(w.pool, pool)
  {
    hide Same, Restored;
    var restored := Restored(w.saved);
    SameIsSymmetric(restored, w.pool);
    SameIsSymmetric(after.pool, pool);
    if Settled(after) {
      SameIsTransitive(w.pool, restored, after.pool);
      SameIsTransitive(w.pool, after.pool, pool);
    }
    if Same(w.pool, pool) {
      SameIsTransitive(restored, w.pool, pool);
      SameIsTransitive(restored, pool, after.pool);
    }
  }

  /** A call whose save fails is forgotten by a restart if and only if it has changed the pool. */
  lemma FailedSaveIsLostExactly(w: World, e: Event)
    requires Settled(w) && Happens(w, e) && e.step.Call? && !Saves(e.step)
    ensures Settled(e.after) <==> Same(w.pool, Do(w.pool, e.step.op))
  {
    hide Same, Do, Restored, Answer, Settled;
    PermutationIsSame(e.after.pool, Do(w.pool, e.step.op));
    SettledAfter(w, e.after, Do(w.pool, e.step.op));
  }

  const SOME_ID := "01234567-89ab-cdef-0123-456789abcdef"

  /** Pauses installation, and fails it once the map has expired. */
  function PausingMap(expired: bool): ControlMap {
    ControlMap(SOME_ID, 0, map["ArtifactInstall_Enter" := Rule(Pause, Fail, Pause)], expired)
  }

  lemma OnlyMapAnswers(expired: bool)
    ensures Answer([PausingMap(expired)], "ArtifactInstall_Enter") == if expired then Fail else Pause
  {
    var (pool, state) := ([PausingMap(expired)], "ArtifactInstall_Enter");
    assert pool[0] in pool;
    assert Wants(pool, state, 0, if expired then Fail else Pause);
    assert forall p, a :: Wants(pool, state, p, a) ==> p == 0 && a == if expired then Fail else Pause;
    DecidingIsTheOne(pool, state, 0);
  }

  lemma PausingMapIsProper()
    ensures Proper(PausingMap(false)) && Sanitize(PausingMap(false)) == PausingMap(false)
  {
  }

  lemma PausingMapIsRestored()
    ensures Restored(SavedForm([PausingMap(false)])) == [PausingMap(false)]
  {
    hide Validate, Sanitize;
    var m := PausingMap(false);
    PausingMapIsProper();
    assert Select([m], false) == [m] && Select([m], true) == [];
    assert [m][1..] == [] && m.(expired := false) == m;
    assert Decoded([m], false) == [m] && Decoded([], true) == [];
  }

  /** A map expires, and a query fails the update; after a restart the same query pauses it again. */
  lemma ExpiredMapComesBack()
    ensures var stale := World([PausingMap(true)], SavedForm([PausingMap(false)]));
            && Proper(PausingMap(false))
            && Happens(World([PausingMap(false)], stale.saved), Event(Call(Expire(SOME_ID, 0), true), stale, Continue))
            && Answer(stale.pool, "ArtifactInstall_Enter") == Fail
            && Answer(Restored(stale.saved), "ArtifactInstall_Enter") == Pause
  {
    hide Answer, Proper, SavedForm, Restored;
    PausingMapIsProper();
    PausingMapIsRestored();
    OnlyMapAnswers(true);
    OnlyMapAnswers(false);
    assert Collect([PausingMap(false)], ExpireKey(SOME_ID, 0)) == [PausingMap(true)];
  }

  // ---------------------------------------------- restarts that change no answer

  /** The calls and expiries of a run, without its restarts. */
  function Calls(events: seq<Event>): seq<Op> {
    if events == [] then [] else (if events[0].step.Call? then [events[0].step.op] else []) + Calls(events[1..])
  }

  predicate IsQuery(e: Event) { e.step.Call? && e.step.op.Query? }

  function Answers(events: seq<Event>): seq<Action> {
    if events == [] then [] else (if IsQuery(events[0]) then [events[0].answer] else []) + Answers(events[1..])
  }

  /** Every restart comes when it changes nothing, and finds its record readable. */
  predicate RestartsSettled(w: World, events: seq<Event>)
    decreases |events|
  {
    events == []
    || ((events[0].step.Restart? ==> events[0].step.ok && Settled(w))
        && RestartsSettled(events[0].after, events[1..]))
  }

  lemma CallKeepsSame(a: World, b: World, x: Event, y: Event)
    requires Same(a.pool, b.pool) && Happens(a, x) && Happens(b, y)
    requires x.step.Call? && y.step.Call? && x.step.op == y.step.op
    ensures Same(x.after.pool, y.after.pool) && (IsQuery(x) ==> x.answer == y.answer)
  {
    hide Same, Do, Answer;
    var op := x.step.op;
    OperationsKeepSame(a.pool, b.pool, op);
    PermutationIsSame(x.after.pool, Do(a.pool, op));
    PermutationIsSame(Do(b.pool, op), y.after.pool);
    SameIsTransitive(x.after.pool, Do(a.pool, op), Do(b.pool, op));
    SameIsTransitive(x.after.pool, Do(b.pool, op), y.after.pool);
    if op.Query? { SameAnswer(a.pool, b.pool, op.state); }
  }

  /**
   Two runs with the same calls and expiries, from pools that differ only in order and
   inert rules, answer alike, however they order their pools, whichever saves fail and
   wherever either restarts, if every restart comes at a point where it changes nothing.
   */
  lemma {:induction false} RestartsChangeNoAnswer(a: World, b: World, x: seq<Event>, y: seq<Event>)
    requires Same(a.pool, b.pool) && Run(a, x) && Run(b, y)
    requires RestartsSettled(a, x) && RestartsSettled(b, y) && Calls(x) == Calls(y)
    ensures Answers(x) == Answers(y)
    decreases |x| + |y|
  {
    hide Same, Do, Answer, Restored;
    if x != [] && x[0].step.Restart? {
      SameIsTransitive(x[0].after.pool, a.pool, b.pool);
      RestartsChangeNoAnswer(x[0].after, b, x[1..], y);
    } else if y != [] && y[0].step.Restart? {
      SameIsSymmetric(y[0].after.pool, b.pool);
      SameIsTransitive(a.pool, b.pool, y[0].after.pool);
      RestartsChangeNoAnswer(a, y[0].after, x, y[1..]);
    } else if x != [] && y != [] {
      assert x[0].step.op == Calls(x)[0] == Calls(y)[0] == y[0].step.op;
      assert Calls(x[1..]) == Calls(x)[1..] == Calls(y)[1..] == Calls(y[1..]);
      CallKeepsSame(a, b, x[0], y[0]);
      RestartsChangeNoAnswer(x[0].after, y[0].after, x[1..], y[1..]);
    }
  }

  /** No restart comes after an expiry or a failed save without a save in between. */
  predicate SavedBeforeRestarts(stale: bool, events: seq<Event>)
    decreases |events|
  {
    events == []
    || match events[0].step
       case Restart(ok) => ok && !stale && SavedBeforeRestarts(false, events[1..])
       case Call(_, _) => SavedBeforeRestarts(!Saves(events[0].step), events[1..])
  }

  /** Such restarts change nothing. */
  lemma {:induction false} SavedRestartsSettle(w: World, stale: bool, events: seq<Event>)
    requires Sound(w) && (stale || Settled(w)) && Run(w, events) && SavedBeforeRestarts(stale, events)
    ensures RestartsSettled(w, events)
    decreases |events|
  {
    hide Sound, Same, Do, Answer, Restored, SavedForm, AllProper;
    if events != [] {
      var e := events[0];
      EventKeepsSound(w, e);
      SoundPoolIsProper(e.after);
      if Saves(e.step) { ReloadIsSame(e.after.pool); }
      SameIsReflexive(e.after.pool);
      SavedRestartsSettle(e.after, e.step.Call? && !Saves(e.step), events[1..]);
    }
  }
}
