/**
 The pool as the agent keeps it (app/updatemanager.go): it is rebuilt by filtering, it
 is sorted and updated in place by queries, and every call saves it. Each method is
 proved against the order-free operations of module ControlMaps.
 */
module ControlMapPool {
  import opened Wrappers
  import opened ControlMaps
  import opened ControlMapRuns

  lemma {:induction false} SelectAppend(a: seq<ControlMap>, m: ControlMap, expired: bool)
    ensures Select(a + [m], expired) == Select(a, expired) + if m.expired == expired then [m.(expired := false)] else []
  {
    if a == [] {
      assert a + [m] == [m];
    } else {
      assert (a + [m])[1..] == a[1..] + [m] && (a + [m])[0] == a[0];
      SelectAppend(a[1..], m, expired);
    }
  }

  lemma SelectNext(pool: seq<ControlMap>, i: nat)
    requires i < |pool|
    ensures var (m, more) := (pool[i].(expired := false), pool[..i + 1]);
            && Select(more, pool[i].expired) == Select(pool[..i], pool[i].expired) + [m]
            && Select(more, !pool[i].expired) == Select(pool[..i], !pool[i].expired)
  {
    hide Select;
    assert pool[..i + 1] == pool[..i] + [pool[i]];
    SelectAppend(pool[..i], pool[i], true);
    SelectAppend(pool[..i], pool[i], false);
  }

  lemma CollectNext(pool: seq<ControlMap>, i: nat, pass: Pass)
    requires i < |pool|
    ensures Collect(pool[..i + 1], pass) == Collect(pool[..i], pass) + AsSeq(Passed(pool[i], pass))
  {
    hide Passed;
    assert pool[..i + 1] == pool[..i] + [pool[i]];
    CollectConcat(pool[..i], [pool[i]], pass);
    CollectOne(pool[i], pass);
  }

  lemma {:induction false} NoneSelected(pool: seq<ControlMap>)
    ensures Select(pool, false) == [] && Select(pool, true) == [] <==> pool == []
  {
  }

  // ------------------------------------------------------------ its helpers

  ghost predicate Sorted(maps: seq<ControlMap>) {
    forall i, j :: 0 <= i < j < |maps| ==> maps[i].priority >= maps[j].priority
  }

  method InsertByPriority(maps: seq<ControlMap>, m: ControlMap) returns (r: seq<ControlMap>)
    requires Sorted(maps)
    ensures multiset(r) == multiset(maps) + multiset{m} && Sorted(r)
  {
    var k := 0;
    while k < |maps| && maps[k].priority > m.priority
      invariant 0 <= k <= |maps| && forall j :: 0 <= j < k ==> maps[j].priority > m.priority
    {
      k := k + 1;
    }
    r := maps[..k] + [m] + maps[k..];
    MoveToFront(maps[..k], m, maps[k..]);
    assert maps == maps[..k] + maps[k..];
    SplicedIsSorted(maps, k, m);
  }

  lemma SplicedIsSorted(maps: seq<ControlMap>, k: nat, m: ControlMap)
    requires Sorted(maps) && k <= |maps|
    requires forall j :: 0 <= j < k ==> maps[j].priority > m.priority
    requires k < |maps| ==> maps[k].priority <= m.priority
    ensures Sorted(maps[..k] + [m] + maps[k..])
  {
    var r := maps[..k] + [m] + maps[k..];
    forall i, j | 0 <= i < j < |r| ensures r[i].priority >= r[j].priority {
      assert j > k ==> maps[j - 1].priority <= m.priority;
    }
  }

  /** sort.Slice: only that the result is sorted is relied on. */
  method SortByPriority(pool: seq<ControlMap>) returns (maps: seq<ControlMap>)
    ensures multiset(maps) == multiset(pool) && Sorted(maps)
  {
    maps := [];
    var i := 0;
    while i < |pool|
      invariant 0 <= i <= |pool| && multiset(maps) == multiset(pool[..i]) && Sorted(maps)
    {
      assert pool[..i + 1] == pool[..i] + [pool[i]];
      maps := InsertByPriority(maps, pool[i]);
      i := i + 1;
    }
    assert pool[..i] == pool;
  }

  /** The priorities in use, each once, highest first. */
  method UniquePriorities(maps: seq<ControlMap>) returns (ps: seq<int>)
    requires Sorted(maps)
    ensures forall i, j :: 0 <= i < j < |ps| ==> ps[i] > ps[j]
    ensures forall m :: m in maps ==> m.priority in ps
    ensures forall p :: p in ps ==> exists m :: m in maps && m.priority == p
    ensures ps != [] ==> maps != [] && ps[0] == maps[0].priority
  {
    ps := [];
    if |maps| == 0 { return; }
    var oldPri := maps[0].priority;
    ps := [oldPri];
    var i := 0;
    while i < |maps|
      invariant 0 <= i <= |maps| && |ps| > 0 && oldPri == ps[|ps| - 1] && ps[0] == maps[0].priority
      invariant forall a, b :: 0 <= a < b < |ps| ==> ps[a] > ps[b]
      invariant forall k :: 0 <= k < i ==> maps[k].priority in ps
      invariant forall p :: p in ps ==> exists m :: m in maps && m.priority == p
      invariant i < |maps| ==> maps[i].priority <= oldPri
    {
      if maps[i].priority != oldPri {
        ps := ps + [maps[i].priority];
        oldPri := maps[i].priority;
      }
      i := i + 1;
    }
  }

  /** The strongest action in a list; None when all of them only continue. */
  method QueryActionList(actions: seq<Action>) returns (v: Option<Action>)
    ensures v == if Fail in actions then Some(Fail) else if Pause in actions then Some(Pause)
                 else if ForceContinue in actions then Some(Continue) else None
  {
    var pauseExists, forceContinueExists := false, false;
    var i := 0;
    while i < |actions|
      invariant 0 <= i <= |actions| && Fail !in actions[..i]
      invariant pauseExists <==> Pause in actions[..i]
      invariant forceContinueExists <==> ForceContinue in actions[..i]
    {
      if actions[i] == Fail { return Some(Fail); }
      if actions[i] == Pause { pauseExists := true; }
      if actions[i] == ForceContinue { forceContinueExists := true; }
      i := i + 1;
    }
    assert actions[..i] == actions;
    v := if pauseExists then Some(Pause) else if forceContinueExists then Some(Continue) else None;
  }

  // ------------------------------------------------------------- the query

  function AskedAt(m: ControlMap, state: string, priority: int): ControlMap {
    if m.priority == priority && state in m.states then Advance(m, state) else m
  }

  /** Asks the maps of one priority, and replaces each by what it says next. */
  method AskPriority(maps: seq<ControlMap>, state: string, priority: int, actions: seq<Action>)
    returns (asked: seq<ControlMap>, collected: seq<Action>)
    ensures |asked| == |maps| && forall j :: 0 <= j < |maps| ==> asked[j] == AskedAt(maps[j], state, priority)
    ensures forall a :: a in collected <==> a in actions || Wants(maps, state, priority, a)
  {
    asked, collected := maps, actions;
    var j := 0;
    while j < |maps|
      invariant 0 <= j <= |maps| == |asked|
      invariant forall k :: 0 <= k < j ==> asked[k] == AskedAt(maps[k], state, priority)
      invariant forall k :: j <= k < |maps| ==> asked[k] == maps[k]
      invariant forall a :: a in collected <==> a in actions || Wants(maps[..j], state, priority, a)
    {
      if asked[j].priority == priority && state in asked[j].states {
        collected := collected + [Effective(asked[j], state)];
        asked := asked[j := Advance(asked[j], state)];
      }
      WantsOneMore(maps, j, state, priority);
      j := j + 1;
    }
    assert maps[..j] == maps;
  }

  lemma WantsOneMore(maps: seq<ControlMap>, j: nat, state: string, priority: int)
    requires j < |maps|
    ensures var m := maps[j];
            forall a :: Wants(maps[..j + 1], state, priority, a) <==>
              Wants(maps[..j], state, priority, a)
                || (m.priority == priority && state in m.states && Effective(m, state) == a)
  {
    assert maps[..j + 1] == maps[..j] + [maps[j]];
    forall a
      ensures Wants(maps[..j + 1], state, priority, a) <==>
        Wants(maps[..j], state, priority, a)
        || (maps[j].priority == priority && state in maps[j].states && Effective(maps[j], state) == a)
    {
      if Wants(maps[..j], state, priority, a) {
        var m :| m in maps[..j] && m.priority == priority && state in m.states && Effective(m, state) == a;
        assert m in maps[..j + 1];
      }
      assert maps[j] in maps[..j + 1];
    }
  }

  /** The maps of priority cut and above have been asked, and no other. */
  predicate AskedDownTo(sorted: seq<ControlMap>, maps: seq<ControlMap>, state: string, cut: int) {
    |maps| == |sorted| && forall j :: 0 <= j < |maps| ==> maps[j] == Asked(sorted[j], state, Some(cut))
  }

  /** Asking the next priority in use. */
  lemma AskNext(sorted: seq<ControlMap>, maps: seq<ControlMap>, asked: seq<ControlMap>, state: string, cut: int, p: int)
    requires AskedDownTo(sorted, maps, state, cut) && p < cut
    requires forall m :: m in sorted ==> m.priority <= p || m.priority >= cut
    requires |asked| == |maps| && forall j :: 0 <= j < |maps| ==> asked[j] == AskedAt(maps[j], state, p)
    ensures AskedDownTo(sorted, asked, state, p)
  {
    forall j | 0 <= j < |asked| ensures asked[j] == Asked(sorted[j], state, Some(p)) {
      assert sorted[j] in sorted;
    }
  }

  lemma UnaskedWants(sorted: seq<ControlMap>, maps: seq<ControlMap>, state: string, cut: int, p: int, a: Action)
    requires AskedDownTo(sorted, maps, state, cut) && p < cut
    ensures Wants(maps, state, p, a) <==> Wants(sorted, state, p, a)
  {
    if Wants(maps, state, p, a) {
      var m :| m in maps && m.priority == p && state in m.states && Effective(m, state) == a;
      var j :| 0 <= j < |maps| && maps[j] == m;
      assert sorted[j] in sorted && sorted[j] == m;
    }
    if Wants(sorted, state, p, a) {
      var m :| m in sorted && m.priority == p && state in m.states && Effective(m, state) == a;
      var j :| 0 <= j < |sorted| && sorted[j] == m;
      assert maps[j] in maps && maps[j] == m;
    }
  }

  lemma NoMapNoVerdict(sorted: seq<ControlMap>, state: string, p: int)
    requires forall m :: m in sorted ==> m.priority != p
    ensures Verdict(sorted, state, p).None?
  {
  }

  lemma {:induction false} AskedIsCollected(sorted: seq<ControlMap>, maps: seq<ControlMap>, state: string,
      deciding: Option<int>)
    requires |maps| == |sorted| && forall j :: 0 <= j < |maps| ==> maps[j] == Asked(sorted[j], state, deciding)
    ensures maps == Collect(sorted, Ask(state, deciding))
  {
    if sorted != [] { AskedIsCollected(sorted[1..], maps[1..], state, deciding); }
  }

  /** Every map's priority is in ps, which descends: asking ps[i] after ps[..i] leaves no gap. */
  lemma NoGap(sorted: seq<ControlMap>, ps: seq<int>, i: nat, cut: int)
    requires i < |ps| && forall a, b :: 0 <= a < b < |ps| ==> ps[a] > ps[b]
    requires forall m :: m in sorted ==> m.priority in ps
    requires if i == 0 then forall m :: m in sorted ==> m.priority < cut else cut == ps[i - 1]
    ensures forall m :: m in sorted ==> m.priority <= ps[i] || m.priority >= cut
  {
    forall m | m in sorted ensures m.priority <= ps[i] || m.priority >= cut {
      var t :| 0 <= t < |ps| && ps[t] == m.priority;
    }
  }

  predicate Quiet(actions: seq<Action>) { Fail !in actions && Pause !in actions && ForceContinue !in actions }

  /** Quiet actions of higher priorities do not change what the list as a whole says. */
  lemma ListIsVerdict(sorted: seq<ControlMap>, maps: seq<ControlMap>, state: string, cut: int, p: int,
                      actions: seq<Action>, collected: seq<Action>, v: Option<Action>)
    requires AskedDownTo(sorted, maps, state, cut) && p < cut && Quiet(actions)
    requires forall a :: a in collected <==> a in actions || Wants(maps, state, p, a)
    requires v == if Fail in collected then Some(Fail) else if Pause in collected then Some(Pause)
                  else if ForceContinue in collected then Some(Continue) else None
    ensures v == Verdict(sorted, state, p) && (v.None? ==> Quiet(collected))
  {
    hide AskedDownTo, Wants;
    UnaskedWants(sorted, maps, state, cut, p, Fail);
    UnaskedWants(sorted, maps, state, cut, p, Pause);
    UnaskedWants(sorted, maps, state, cut, p, ForceContinue);
  }

  lemma HighestVerdictDecides(sorted: seq<ControlMap>, state: string, ps: seq<int>, i: nat)
    requires i < |ps| && forall a, b :: 0 <= a < b < |ps| ==> ps[a] > ps[b]
    requires forall m :: m in sorted ==> m.priority in ps
    requires forall k :: 0 <= k < i ==> Verdict(sorted, state, ps[k]).None?
    requires Verdict(sorted, state, ps[i]).Some?
    ensures Deciding(sorted, state) == Some(ps[i])
  {
    hide Verdict;
    forall p | p > ps[i] ensures Verdict(sorted, state, p).None? {
      if m :| m in sorted && m.priority == p {
        var t :| 0 <= t < |ps| && ps[t] == p;
      } else {
        NoMapNoVerdict(sorted, state, p);
      }
    }
    DecidingIsTheOne(sorted, state, ps[i]);
  }

  lemma NoVerdictContinues(sorted: seq<ControlMap>, maps: seq<ControlMap>, state: string, ps: seq<int>, cut: int)
    requires forall m :: m in sorted ==> m.priority in ps
    requires forall k :: 0 <= k < |ps| ==> Verdict(sorted, state, ps[k]).None?
    requires AskedDownTo(sorted, maps, state, cut) && (ps != [] ==> cut == ps[|ps| - 1])
    requires forall a, b :: 0 <= a < b < |ps| ==> ps[a] > ps[b]
    ensures Deciding(sorted, state).None? && maps == Collect(sorted, Ask(state, None))
  {
    if p :| Decides(sorted, state, p) {
      var m := WantedBy(sorted, state, p);
      assert false;
    }
    forall j | 0 <= j < |maps| ensures maps[j] == Asked(sorted[j], state, None) {
      assert sorted[j] in sorted;
      var t :| 0 <= t < |ps| && ps[t] == sorted[j].priority;
    }
    AskedIsCollected(sorted, maps, state, None);
  }

  /** QueryAndUpdate on the pool's maps. */
  method QueryMaps(pool: seq<ControlMap>, state: string) returns (after: seq<ControlMap>, action: Action)
    ensures multiset(after) == multiset(Do(pool, Query(state)))
    ensures action == Answer(pool, state)
    ensures action == Fail || action == Pause || action == Continue
  {
    hide Verdict, Decides, Wants, Collect, Asked, AskedAt, Passed;
    var sorted := SortByPriority(pool);
    PermutationIsSame(sorted, pool);
    SameAnswer(sorted, pool, state);
    CollectPermutes(sorted, pool, Ask(state, Deciding(pool, state)));
    var priorities := UniquePriorities(sorted);
    after := sorted;
    var actions := [];
    ghost var cut := if sorted == [] then 0 else sorted[0].priority + 1;
    NothingAsked(sorted, state, cut);
    var i := 0;
    while i < |priorities|
      invariant 0 <= i <= |priorities| && AskedDownTo(sorted, after, state, cut) && Quiet(actions)
      invariant if i == 0 then forall m :: m in sorted ==> m.priority < cut else cut == priorities[i - 1]
      invariant forall k :: 0 <= k < i ==> Verdict(sorted, state, priorities[k]).None?
    {
      var p := priorities[i];
      ghost var (before, quiet) := (after, actions);
      NoGap(sorted, priorities, i, cut);
      assert p < cut;
      after, actions := AskPriority(after, state, p, actions);
      var v := QueryActionList(actions);
      ListIsVerdict(sorted, before, state, cut, p, quiet, actions, v);
      AskNext(sorted, before, after, state, cut, p);
      if v.Some? {
        HighestVerdictDecides(sorted, state, priorities, i);
        AskedIsCollected(sorted, after, state, Some(p));
        return after, v.value;
      }
      cut, i := p, i + 1;
    }
    NoVerdictContinues(sorted, after, state, priorities, cut);
    action := Continue;
  }

  lemma NothingAsked(sorted: seq<ControlMap>, state: string, cut: int)
    requires Sorted(sorted) && (sorted != [] ==> cut > sorted[0].priority)
    ensures AskedDownTo(sorted, sorted, state, cut) && forall m :: m in sorted ==> m.priority < cut
  {
  }

  class ControlMapPool {
    var pool: seq<ControlMap>
    var saved: Option<Saved>

    /** NewControlMap. */
    constructor (saved: Option<Saved>)
      ensures pool == Restored(saved) && this.saved == saved
    {
      pool, this.saved := [], saved;
      new;
      LoadFromStore();
    }

    /** What the database holds after a save; a failed write is only logged. */
    ghost predicate SavedIf(ok: bool, before: Option<Saved>)
      reads this
    {
      saved == if ok then SavedForm(pool) else before
    }

    /** query with a collector that appends: the maps a pass lets through, in their order. */
    method Filter(pass: Pass) returns (kept: seq<ControlMap>)
      ensures kept == Collect(pool, pass)
    {
      hide Passed, Collect;
      kept := [];
      NothingCollected(pass);
      assert pool[..0] == [];
      var i := 0;
      while i < |pool|
        invariant 0 <= i <= |pool| && kept == Collect(pool[..i], pass)
      {
        CollectNext(pool, i, pass);
        var m := Passed(pool[i], pass);
        if m.Some? { kept := kept + [m.value]; }
        i := i + 1;
      }
      assert pool[..i] == pool;
    }

    method SaveToStore(ok: bool)
      modifies this`saved
      ensures SavedIf(ok, old(saved))
    {
      var active, expired := [], [];
      var i := 0;
      while i < |pool|
        invariant 0 <= i <= |pool| && saved == old(saved)
        invariant active == Select(pool[..i], false) && expired == Select(pool[..i], true)
      {
        SelectNext(pool, i);
        var encoded := pool[i].(expired := false);
        if pool[i].expired { expired := expired + [encoded]; } else { active := active + [encoded]; }
        i := i + 1;
      }
      assert pool[..i] == pool;
      NoneSelected(pool);
      if ok { saved := if active == [] && expired == [] then None else Some(Saved(active, expired)); }
    }

    /** Nothing is loaded if any saved map fails validation. */
    method LoadFromStore()
      modifies this`pool
      ensures pool == if saved.None? || HoldsInvalid(saved.value) then old(pool) else Restored(saved)
    {
      if saved.None? { return; }
      if HoldsInvalid(saved.value) { return; }
      pool := Decoded(saved.value.active, false) + Decoded(saved.value.expired, true);
    }

    method InsertMap(keep: Pass, cm: ControlMap, ok: bool)
      modifies this
      ensures pool == Collect(old(pool), keep) + [cm] && SavedIf(ok, old(saved))
    {
      var nm := Filter(keep);
      pool := nm + [cm];
      SaveToStore(ok);
    }

    method Insert(cm: ControlMap, ok: bool)
      modifies this
      ensures pool == Do(old(pool), Op.Insert(cm)) && SavedIf(ok, old(saved))
    {
      InsertMap(DropKey(cm.id, cm.priority), cm, ok);
    }

    method InsertReplaceAllPriorities(cm: ControlMap, ok: bool)
      modifies this
      ensures pool == Do(old(pool), Op.InsertReplaceAllPriorities(cm)) && SavedIf(ok, old(saved))
    {
      InsertMap(DropId(cm.id), cm, ok);
    }

    method DeleteMaps(keep: Pass, ok: bool)
      modifies this
      ensures pool == Collect(old(pool), keep) && SavedIf(ok, old(saved))
    {
      pool := Filter(keep);
      SaveToStore(ok);
    }

    method Delete(id: string, priority: int, ok: bool)
      modifies this
      ensures pool == Do(old(pool), Op.Delete(id, priority)) && SavedIf(ok, old(saved))
    {
      DeleteMaps(DropKey(id, priority), ok);
    }

    method DeleteAllPriorities(id: string, ok: bool)
      modifies this
      ensures pool == Do(old(pool), Op.DeleteAllPriorities(id)) && SavedIf(ok, old(saved))
    {
      DeleteMaps(DropId(id), ok);
    }

    method ClearExpired(ok: bool)
      modifies this
      ensures pool == Do(old(pool), Op.ClearExpired) && SavedIf(ok, old(saved))
    {
      pool := Filter(DropExpired);
      SaveToStore(ok);
    }

    /** A map's timer sets its flag; nothing is saved. */
    method Expire(id: string, priority: int)
      modifies this`pool
      ensures pool == Do(old(pool), Op.Expire(id, priority))
    {
      pool := Filter(ExpireKey(id, priority));
    }

    method QueryAndUpdate(state: string, ok: bool) returns (action: Action)
      modifies this
      ensures multiset(pool) == multiset(Do(old(pool), Query(state))) && SavedIf(ok, old(saved))
      ensures action == Answer(old(pool), state)
      ensures action == Fail || action == Pause || action == Continue
    {
      pool, action := QueryMaps(pool, state);
      SaveToStore(ok);
    }
  }
}
