/**
 What single maps and single calls mean for a query, in terms of the fields of the maps
 themselves: which rules a decoded map ends up with, which map decides, what asking and
 expiring change, and what the other calls keep.
 */
module ControlMapRules {
  import opened Wrappers
  import opened ControlMaps
  import opened ControlMapRuns

  // ------------------------------------------------------------ decoded maps

  /**
   Rule by rule, what decoding makes of a map: an absent action is to continue; an absent
   expiry is that of the action, but a pause fails; an absent follow-up is the action.
   What is left to do nothing at all is dropped.
   */
  lemma SanitizedExactly(m: ControlMap, k: string)
    ensures var s := Sanitize(m);
            && s.id == m.id && s.priority == m.priority && s.expired == m.expired
            && (k !in m.states ==> k !in s.states)
            && (k in m.states ==>
                  var r := m.states[k];
                  var action := if r.action == Unset then Continue else r.action;
                  var onExpire := if r.onExpire != Unset then r.onExpire
                                  else if action == Pause then Fail else action;
                  var onExecuted := if r.onExecuted != Unset then r.onExecuted else action;
                  && (k in s.states <==> action != Continue || onExpire != Continue || onExecuted != Continue)
                  && (k in s.states ==> s.states[k] == Rule(action, onExpire, onExecuted)))
  {
  }

  /** What makes the agent refuse a map. */
  predicate Bad(m: ControlMap) {
    || |m.id| != 36 || !(-10 <= m.priority <= 10)
    || (exists i | 0 <= i < |m.id| ::
          if i == 8 || i == 13 || i == 18 || i == 23 then m.id[i] != '-'
          else !('0' <= m.id[i] <= '9') && !('a' <= m.id[i] <= 'f') && !('A' <= m.id[i] <= 'F'))
    || (exists k | k in m.states ::
          || (k != "ArtifactInstall_Enter" && k != "ArtifactReboot_Enter" && k != "ArtifactCommit_Enter")
          || m.states[k].action == Unsupported || m.states[k].onExecuted == Unsupported
          || m.states[k].onExpire == Unsupported || m.states[k].onExpire == Pause)
  }

  lemma BadExactly(m: ControlMap)
    ensures Bad(m) <==> !Validate(m)
  {
    assert forall k: string :: k in STATE_KEYS <==> k == STATE_KEYS[0] || k == STATE_KEYS[1] || k == STATE_KEYS[2];
  }

  lemma {:induction false} DecodedAt(maps: seq<ControlMap>, expired: bool, i: nat)
    requires i < |maps|
    ensures |Decoded(maps, expired)| == |maps| && Decoded(maps, expired)[i] == Sanitize(maps[i]).(expired := expired)
  {
    hide Sanitize;
    if |maps| > 1 { DecodedAt(maps[1..], expired, if i == 0 then 0 else i - 1); }
  }

  /** One bad map keeps all of them out; else each is sanitized, and expired if it is in the expired list. */
  lemma RestoredExactly(s: Saved, i: nat)
    requires i < |s.active + s.expired|
    ensures var pool := Restored(Some(s));
            if exists m | m in s.active + s.expired :: Bad(m) then pool == []
            else
              && |pool| == |s.active| + |s.expired|
              && pool[i] == (if i < |s.active| then Sanitize(s.active[i]).(expired := false)
                             else Sanitize(s.expired[i - |s.active|]).(expired := true))
  {
    hide Sanitize, Validate, Bad, Decoded;
    forall m { BadExactly(m); }
    NothingDecoded();
    if s.active != [] { DecodedAt(s.active, false, if i < |s.active| then i else 0); }
    if s.expired != [] { DecodedAt(s.expired, true, if i < |s.active| then 0 else i - |s.active|); }
  }

  lemma NothingDecoded()
    ensures Decoded([], true) == [] && Decoded([], false) == []
  {
  }

  /** A save keeps every map as it is, in the list that tells whether it has expired. */
  lemma {:induction false} SelectedExactly(pool: seq<ControlMap>, expired: bool, x: ControlMap)
    ensures x in Select(pool, expired) <==> exists m | m in pool :: m.expired == expired && x == m.(expired := false)
  {
    if pool != [] {
      SelectedExactly(pool[1..], expired, x);
      assert pool == [pool[0]] + pool[1..];
    }
  }

  // -------------------------------------------------------------- the answer

  /** A map's say in a state: its rule, or what that becomes when the map has expired. */
  predicate Speaks(m: ControlMap, state: string, a: Action) {
    state in m.states && a == if m.expired then m.states[state].onExpire else m.states[state].action
  }

  predicate Decisive(m: ControlMap, state: string) {
    Speaks(m, state, Fail) || Speaks(m, state, Pause) || Speaks(m, state, ForceContinue)
  }

  /** Nothing above m has anything to say. */
  predicate Unopposed(pool: seq<ControlMap>, state: string, m: ControlMap) {
    forall o | o in pool :: o.priority > m.priority ==> !Decisive(o, state)
  }

  lemma VerdictIsDecisive(pool: seq<ControlMap>, state: string, p: int)
    ensures Verdict(pool, state, p).Some? <==> exists m | m in pool :: m.priority == p && Decisive(m, state)
  {
    hide Verdict;
    if Verdict(pool, state, p).Some? {
      var m := DecisiveMap(pool, state, p);
    }
    if m :| m in pool && m.priority == p && Decisive(m, state) { WantedByIt(pool, state, m); }
  }

  lemma DecisiveMap(pool: seq<ControlMap>, state: string, p: int) returns (m: ControlMap)
    requires Verdict(pool, state, p).Some?
    ensures m in pool && m.priority == p && Decisive(m, state)
  {
    var a := if Wants(pool, state, p, Fail) then Fail
             else if Wants(pool, state, p, Pause) then Pause else ForceContinue;
    assert Wants(pool, state, p, a);
    m :| m in pool && m.priority == p && state in m.states && Effective(m, state) == a;
  }

  lemma WantedByIt(pool: seq<ControlMap>, state: string, m: ControlMap)
    requires m in pool && Decisive(m, state)
    ensures Verdict(pool, state, m.priority).Some?
  {
    assert Wants(pool, state, m.priority, Effective(m, state));
  }

  lemma UnopposedDecides(pool: seq<ControlMap>, state: string, m: ControlMap)
    requires m in pool && Decisive(m, state) && Unopposed(pool, state, m)
    ensures Deciding(pool, state) == Some(m.priority)
  {
    hide Verdict, Decisive;
    forall p | p >= m.priority ensures Verdict(pool, state, p).Some? <==> p == m.priority {
      VerdictIsDecisive(pool, state, p);
    }
    DecidingIsTheOne(pool, state, m.priority);
  }

  /**
   The maps of the highest priority with anything to say decide, and among them a failure
   goes over a pause, and a pause over going on. Where nobody has anything to say, the
   update goes on.
   */
  lemma AnswerExactly(pool: seq<ControlMap>, state: string)
    ensures Answer(pool, state) == Fail <==>
            exists m | m in pool :: Speaks(m, state, Fail) && Unopposed(pool, state, m)
    ensures Answer(pool, state) == Pause <==>
            && (exists m | m in pool :: Speaks(m, state, Pause) && Unopposed(pool, state, m))
            && (forall m | m in pool :: Speaks(m, state, Fail) ==> !Unopposed(pool, state, m))
    ensures Answer(pool, state) in {Fail, Pause, Continue}
  {
    hide Verdict, Unopposed, Speaks;
    var d := Deciding(pool, state);
    forall m | m in pool && Unopposed(pool, state, m) && Decisive(m, state) ensures d == Some(m.priority) {
      UnopposedDecides(pool, state, m);
    }
    if d.Some? {
      DecidersAreUnopposed(pool, state, d.value);
      VerdictSays(pool, state, d.value);
    }
  }

  lemma DecidersAreUnopposed(pool: seq<ControlMap>, state: string, p: int)
    requires Decides(pool, state, p)
    ensures forall m | m in pool && m.priority == p :: Unopposed(pool, state, m)
  {
    hide Verdict, Decisive;
    forall o | o in pool && o.priority > p ensures !Decisive(o, state) {
      VerdictIsDecisive(pool, state, o.priority);
    }
  }

  lemma VerdictSays(pool: seq<ControlMap>, state: string, p: int)
    requires Verdict(pool, state, p).Some?
    ensures var v := Verdict(pool, state, p).value;
            var fails := exists m | m in pool :: m.priority == p && Speaks(m, state, Fail);
            var pauses := exists m | m in pool :: m.priority == p && Speaks(m, state, Pause);
            v == if fails then Fail else if pauses then Pause else Continue
  {
    forall a: Action
      ensures Wants(pool, state, p, a) <==> exists m | m in pool :: m.priority == p && Speaks(m, state, a)
    {
      if Wants(pool, state, p, a) {
        var m :| m in pool && m.priority == p && state in m.states && Effective(m, state) == a;
        assert Speaks(m, state, a);
      }
      if m :| m in pool && m.priority == p && Speaks(m, state, a) { assert Effective(m, state) == a; }
    }
  }

  /** An expired map that passed validation fails or goes on, but it can never hold an update back. */
  lemma ExpiredNeverPauses(pool: seq<ControlMap>, state: string)
    requires AllProper(pool) && forall m :: m in pool ==> m.expired
    ensures Answer(pool, state) != Pause
  {
    hide Validate, Answer;
    AnswerExactly(pool, state);
    forall m | m in pool ensures !Speaks(m, state, Pause) { ExpiredMapIsFirm(m, state); }
  }

  lemma ExpiredMapIsFirm(m: ControlMap, state: string)
    requires Proper(m) && m.expired
    ensures !Speaks(m, state, Pause)
  {
  }

  /**
   A map that says to pause and nothing about its expiry, loaded from the database: it
   pauses, and once it has expired it fails.
   */
  lemma PauseExpiresToFail(m: ControlMap, state: string)
    requires Validate(m) && state in m.states && m.states[state].action == Pause && m.states[state].onExpire == Unset
    ensures Answer(Restored(Some(Saved([m], []))), state) == Pause
    ensures Answer(Restored(Some(Saved([], [m]))), state) == Fail
  {
    hide Restored, Answer, Validate;
    BadExactly(m);
    assert [m] + [] == [m] && [] + [m] == [m];
    RestoredExactly(Saved([m], []), 0);
    RestoredExactly(Saved([], [m]), 0);
    SanitizedExactly(m, state);
    assert Restored(Some(Saved([m], []))) == [Sanitize(m).(expired := false)];
    assert Restored(Some(Saved([], [m]))) == [Sanitize(m).(expired := true)];
    LoneMapAnswers(Sanitize(m).(expired := false), state);
    LoneMapAnswers(Sanitize(m).(expired := true), state);
  }

  lemma LoneMapAnswers(m: ControlMap, state: string)
    ensures Speaks(m, state, Pause) ==> Answer([m], state) == Pause
    ensures Speaks(m, state, Fail) ==> Answer([m], state) == Fail
  {
    hide Answer, Decisive;
    AnswerExactly([m], state);
    assert m in [m] && Unopposed([m], state, m);
  }

  // --------------------------------------------------------------- the calls

  lemma {:induction false} CollectAt(pool: seq<ControlMap>, pass: Pass, i: nat)
    requires i < |pool| && forall m :: m in pool ==> Passed(m, pass).Some?
    ensures |Collect(pool, pass)| == |pool| && Some(Collect(pool, pass)[i]) == Passed(pool[i], pass)
  {
    hide Passed;
    if |pool| > 1 { CollectAt(pool[1..], pass, if i == 0 then 0 else i - 1); }
  }

  /**
   A query moves on exactly the maps it got to, those that nothing above them had already
   settled: what they said gives way to what they say once asked. All else stays.
   */
  lemma AskedExactly(pool: seq<ControlMap>, state: string, i: nat)
    requires i < |pool|
    ensures var after := Do(pool, Query(state));
            var m := pool[i];
            && |after| == |pool|
            && after[i] == (if state in m.states && Unopposed(pool, state, m)
                            then m.(states := m.states[state := m.states[state].(action := m.states[state].onExecuted)])
                            else m)
  {
    hide Decides, Verdict, Unopposed, Decisive;
    var d := Deciding(pool, state);
    CollectAt(pool, Ask(state, d), i);
    ReachedExactly(pool, state, pool[i]);
  }

  lemma ReachedExactly(pool: seq<ControlMap>, state: string, m: ControlMap)
    ensures Unopposed(pool, state, m) <==> Deciding(pool, state).None? || m.priority >= Deciding(pool, state).value
  {
    hide Verdict, Decisive;
    var d := Deciding(pool, state);
    if d.Some? {
      DecidersAreUnopposed(pool, state, d.value);
      VerdictIsDecisive(pool, state, d.value);
      var o :| o in pool && o.priority == d.value && Decisive(o, state);
    } else {
      forall o | o in pool ensures !Decisive(o, state) {
        if Decisive(o, state) {
          VerdictIsDecisive(pool, state, o.priority);
          SomethingDecides(pool, state, o.priority);
        }
      }
    }
  }

  /** An expiry sets the flag of the maps with that ID and priority, and changes nothing else. */
  lemma ExpiredExactly(pool: seq<ControlMap>, id: string, priority: int, i: nat)
    requires i < |pool|
    ensures var after := Do(pool, Expire(id, priority));
            && |after| == |pool|
            && after[i] == pool[i].(expired := pool[i].expired || (pool[i].id == id && pool[i].priority == priority))
  {
    CollectAt(pool, ExpireKey(id, priority), i);
  }

  /** What every other call leaves of a map m that may be in the pool. */
  lemma LeftExactly(pool: seq<ControlMap>, m: ControlMap, id: string, priority: int, n: ControlMap)
    ensures multiset(Do(pool, Delete(id, priority)))[m]
            == if m.id == id && m.priority == priority then 0 else multiset(pool)[m]
    ensures multiset(Do(pool, DeleteAllPriorities(id)))[m] == if m.id == id then 0 else multiset(pool)[m]
    ensures multiset(Do(pool, ClearExpired))[m] == if m.expired then 0 else multiset(pool)[m]
    ensures multiset(Do(pool, Insert(n)))[m]
            == (if m.id == n.id && m.priority == n.priority then 0 else multiset(pool)[m]) + (if m == n then 1 else 0)
    ensures multiset(Do(pool, InsertReplaceAllPriorities(n)))[m]
            == (if m.id == n.id then 0 else multiset(pool)[m]) + (if m == n then 1 else 0)
  {
    hide Collect;
    DropsOnlyRejected(pool, DropKey(id, priority), m);
    DropsOnlyRejected(pool, DropId(id), m);
    DropsOnlyRejected(pool, DropExpired, m);
    DropsOnlyRejected(pool, DropKey(n.id, n.priority), m);
    DropsOnlyRejected(pool, DropId(n.id), m);
  }
}
