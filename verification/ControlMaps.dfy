/**
 Update control maps (app/updatecontrolmap/updatecontrolmap.go) and what a pool of them
 answers (app/updatemanager.go). The answer to a query is defined here without sorting
 or accumulating anything; module ControlMapPool has the code's own loops.
 */
module ControlMaps {
  import opened Wrappers

  datatype Action = Unset | Continue | ForceContinue | Pause | Fail | Unsupported

  /** What a map says about one state: now, once the map has expired, and after it has been asked. */
  datatype Rule = Rule(action: Action, onExpire: Action, onExecuted: Action)

  datatype ControlMap = ControlMap(id: string, priority: int, states: map<string, Rule>, expired: bool)

  // -------------------------------------------------- validating, defaulting

  const STATE_KEYS := ["ArtifactInstall_Enter", "ArtifactReboot_Enter", "ArtifactCommit_Enter"]

  predicate ValidAction(a: Action) { !a.Unsupported? }

  predicate ValidRule(r: Rule) {
    ValidAction(r.action) && ValidAction(r.onExpire) && !r.onExpire.Pause? && ValidAction(r.onExecuted)
  }

  predicate HexDigit(c: char) { '0' <= c <= '9' || 'a' <= c <= 'f' || 'A' <= c <= 'F' }

  predicate IsUUID(s: string) {
    && |s| == 36
    && forall i :: 0 <= i < 36 ==> if i in {8, 13, 18, 23} then s[i] == '-' else HexDigit(s[i])
  }

  predicate Validate(m: ControlMap) {
    && IsUUID(m.id) && -10 <= m.priority <= 10
    && forall k :: k in m.states ==> k in STATE_KEYS && ValidRule(m.states[k])
  }

  function OnExpireDefault(a: Action): Action { if a.Pause? then Fail else a }

  function SanitizeRule(r: Rule): Rule {
    var action := if r.action.Unset? then Continue else r.action;
    Rule(action,
         if r.onExpire.Unset? then OnExpireDefault(action) else r.onExpire,
         if r.onExecuted.Unset? then action else r.onExecuted)
  }

  const INERT := Rule(Continue, Continue, Continue)

  function Sanitize(m: ControlMap): ControlMap {
    m.(states := map k | k in m.states && SanitizeRule(m.states[k]) != INERT :: SanitizeRule(m.states[k]))
  }

  /** Every rule is spelled out, as Sanitize leaves it. */
  predicate Filled(m: ControlMap) {
    forall k :: k in m.states ==> m.states[k] == SanitizeRule(m.states[k])
  }

  /** Sanitizing keeps a map valid, and does nothing to one that has been sanitized. */
  lemma SanitizeSettles(m: ControlMap)
    ensures Filled(Sanitize(m)) && Sanitize(Sanitize(m)) == Sanitize(m)
    ensures Validate(m) ==> Validate(Sanitize(m))
  {
  }

  // ----------------------------------------------------------- the answer

  function Effective(m: ControlMap, state: string): Action
    requires state in m.states
  {
    if m.expired then m.states[state].onExpire else m.states[state].action
  }

  /** Some map of this priority wants the action in this state. */
  ghost predicate Wants(pool: seq<ControlMap>, state: string, priority: int, a: Action) {
    exists m :: m in pool && m.priority == priority && state in m.states && Effective(m, state) == a
  }

  /** What the maps of one priority say together: None when they leave it to lower ones. */
  ghost function Verdict(pool: seq<ControlMap>, state: string, priority: int): Option<Action> {
    if Wants(pool, state, priority, Fail) then Some(Fail)
    else if Wants(pool, state, priority, Pause) then Some(Pause)
    else if Wants(pool, state, priority, ForceContinue) then Some(Continue)
    else None
  }

  /** The highest priority that says anything. */
  ghost predicate Decides(pool: seq<ControlMap>, state: string, priority: int) {
    Verdict(pool, state, priority).Some? && forall p :: p > priority ==> Verdict(pool, state, p).None?
  }

  ghost function Deciding(pool: seq<ControlMap>, state: string): Option<int> {
    if p :| Decides(pool, state, p) then Some(p) else None
  }

  ghost function Answer(pool: seq<ControlMap>, state: string): Action {
    var p := Deciding(pool, state);
    if p.Some? then Verdict(pool, state, p.value).value else Continue
  }

  function Advance(m: ControlMap, state: string): ControlMap
    requires state in m.states
  {
    var r := m.states[state];
    m.(states := m.states[state := r.(action := r.onExecuted)])
  }

  /** A map after a query: it has been asked if nothing above it decided. */
  function Asked(m: ControlMap, state: string, deciding: Option<int>): ControlMap {
    if state in m.states && (deciding.None? || m.priority >= deciding.value) then Advance(m, state) else m
  }

  lemma DecidingIsTheOne(pool: seq<ControlMap>, state: string, p: int)
    requires Decides(pool, state, p)
    ensures Deciding(pool, state) == Some(p)
  {
  }

  lemma WantedBy(pool: seq<ControlMap>, state: string, p: int) returns (m: ControlMap)
    requires Verdict(pool, state, p).Some?
    ensures m in pool && m.priority == p && state in m.states
  {
    var a := if Wants(pool, state, p, Fail) then Fail
             else if Wants(pool, state, p, Pause) then Pause
             else ForceContinue;
    assert Wants(pool, state, p, a);
    m :| m in pool && m.priority == p && state in m.states && Effective(m, state) == a;
  }

  ghost function Above(pool: seq<ControlMap>, p: int): set<ControlMap> { set m | m in pool && m.priority > p }

  /** If any priority says anything, one decides; else the answer is to continue. */
  lemma {:induction false} SomethingDecides(pool: seq<ControlMap>, state: string, p: int)
    requires Verdict(pool, state, p).Some?
    ensures Deciding(pool, state).Some? && Deciding(pool, state).value >= p
    decreases Above(pool, p)
  {
    if !Decides(pool, state, p) {
      var q :| q > p && Verdict(pool, state, q).Some?;
      var m := WantedBy(pool, state, q);
      assert m in Above(pool, p) && m !in Above(pool, q) && Above(pool, q) <= Above(pool, p);
      SomethingDecides(pool, state, q);
    }
  }

  // ---------------------------------------------------- operations on a pool

  /** One pass over a pool, keeping, changing or dropping each map. */
  datatype Pass =
    | Ask(state: string, deciding: Option<int>)
    | DropKey(id: string, priority: int)
    | DropId(id: string)
    | DropExpired
    | ExpireKey(id: string, priority: int)
    | ReloadActive | ReloadExpired
    | Normalize

  predicate HasKey(m: ControlMap, id: string, priority: int) { m.id == id && m.priority == priority }

  /** Sanitized maps without the rules that never have a say. */
  function Norm(m: ControlMap): ControlMap {
    m.(states := map k | k in m.states && m.states[k] != INERT :: m.states[k])
  }

  function Passed(m: ControlMap, pass: Pass): Option<ControlMap> {
    match pass
    case Ask(state, deciding) => Some(Asked(m, state, deciding))
    case DropKey(id, priority) => if HasKey(m, id, priority) then None else Some(m)
    case DropId(id) => if m.id == id then None else Some(m)
    case DropExpired => if m.expired then None else Some(m)
    case ExpireKey(id, priority) => Some(if HasKey(m, id, priority) then m.(expired := true) else m)
    case ReloadActive => if m.expired then None else Some(Sanitize(m))
    case ReloadExpired => if m.expired then Some(Sanitize(m)) else None
    case Normalize => Some(Norm(m))
  }

  function AsSeq(m: Option<ControlMap>): seq<ControlMap> { if m.Some? then [m.value] else [] }

  function Collect(pool: seq<ControlMap>, pass: Pass): seq<ControlMap> {
    if pool == [] then [] else AsSeq(Passed(pool[0], pass)) + Collect(pool[1..], pass)
  }

  datatype Op =
    | Query(state: string)
    | Insert(m: ControlMap) | InsertReplaceAllPriorities(m: ControlMap)
    | Delete(id: string, priority: int) | DeleteAllPriorities(id: string)
    | ClearExpired
    | Expire(id: string, priority: int)    // the map's timer

  /** The pool after an operation, up to its order. */
  ghost function Do(pool: seq<ControlMap>, op: Op): seq<ControlMap> {
    match op
    case Query(state) => Collect(pool, Ask(state, Deciding(pool, state)))
    case Insert(m) => Collect(pool, DropKey(m.id, m.priority)) + [m]
    case InsertReplaceAllPriorities(m) => Collect(pool, DropId(m.id)) + [m]
    case Delete(id, priority) => Collect(pool, DropKey(id, priority))
    case DeleteAllPriorities(id) => Collect(pool, DropId(id))
    case ClearExpired => Collect(pool, DropExpired)
    case Expire(id, priority) => Collect(pool, ExpireKey(id, priority))
  }

  lemma {:induction false} CollectConcat(a: seq<ControlMap>, b: seq<ControlMap>, pass: Pass)
    ensures Collect(a + b, pass) == Collect(a, pass) + Collect(b, pass)
  {
    if a == [] {
      assert a + b == b;
    } else {
      assert (a + b)[1..] == a[1..] + b;
      CollectConcat(a[1..], b, pass);
    }
  }

  /** Taking one element out of a permutation. */
  lemma Extract(a: seq<ControlMap>, b: seq<ControlMap>) returns (x: seq<ControlMap>, y: seq<ControlMap>)
    requires a != [] && multiset(a) == multiset(b)
    ensures b == x + [a[0]] + y && multiset(a[1..]) == multiset(x + y)
  {
    TailWithoutHead(a);
    var i := IndexIn(b, a[0]);
    x, y := b[..i], b[i + 1..];
    assert b == x + [a[0]] + y;
    MoveToFront(x, a[0], y);
  }

  lemma IndexIn(b: seq<ControlMap>, m: ControlMap) returns (i: nat)
    requires m in multiset(b)
    ensures i < |b| && b[i] == m
  {
    i :| i < |b| && b[i] == m;
  }

  lemma TailWithoutHead(a: seq<ControlMap>)
    requires a != []
    ensures a[0] in multiset(a) && multiset(a[1..]) == multiset(a) - multiset{a[0]}
  {
    assert a == [a[0]] + a[1..];
  }

  lemma MoveToFront(x: seq<ControlMap>, m: ControlMap, y: seq<ControlMap>)
    ensures multiset(x + [m] + y) - multiset{m} == multiset(x + y)
  {
    assert multiset(x + [m] + y) == multiset(x) + multiset{m} + multiset(y);
  }

  /** The order inside the pool does not matter to any pass. */
  lemma {:induction false} CollectPermutes(a: seq<ControlMap>, b: seq<ControlMap>, pass: Pass)
    requires multiset(a) == multiset(b)
    ensures multiset(Collect(a, pass)) == multiset(Collect(b, pass))
  {
    hide Passed;
    if a == [] {
      assert |multiset(b)| == 0 && b == [];
    } else {
      var x, y := Extract(a, b);
      CollectPermutes(a[1..], x + y, pass);
      CollectConcat(x + [a[0]], y, pass);
      CollectConcat(x, [a[0]], pass);
      CollectConcat(x, y, pass);
      assert Collect([a[0]], pass) == AsSeq(Passed(a[0], pass));
    }
  }

  // ---------------------------------------------------------- one per key

  function KeyCount(pool: seq<ControlMap>, id: string, priority: int): nat {
    if pool == [] then 0 else (if HasKey(pool[0], id, priority) then 1 else 0) + KeyCount(pool[1..], id, priority)
  }

  /** At most one map for each ID and priority. */
  ghost predicate UniqueKeys(pool: seq<ControlMap>) {
    forall id, priority :: KeyCount(pool, id, priority) <= 1
  }

  lemma {:induction false} KeyCountConcat(a: seq<ControlMap>, b: seq<ControlMap>, id: string, priority: int)
    ensures KeyCount(a + b, id, priority) == KeyCount(a, id, priority) + KeyCount(b, id, priority)
  {
    if a == [] {
      assert a + b == b;
    } else {
      assert (a + b)[1..] == a[1..] + b;
      KeyCountConcat(a[1..], b, id, priority);
    }
  }

  lemma {:induction false} KeyCountPermutes(a: seq<ControlMap>, b: seq<ControlMap>, id: string, priority: int)
    requires multiset(a) == multiset(b)
    ensures KeyCount(a, id, priority) == KeyCount(b, id, priority)
  {
    if a == [] {
      assert |multiset(b)| == 0 && b == [];
    } else {
      var x, y := Extract(a, b);
      KeyCountPermutes(a[1..], x + y, id, priority);
      KeyCountConcat(x + [a[0]], y, id, priority);
      KeyCountConcat(x, [a[0]], id, priority);
      KeyCountConcat(x, y, id, priority);
      assert KeyCount([a[0]], id, priority) == if HasKey(a[0], id, priority) then 1 else 0;
    }
  }

  lemma {:induction false} CollectKeepsKeys(pool: seq<ControlMap>, pass: Pass, id: string, priority: int)
    ensures KeyCount(Collect(pool, pass), id, priority) <= KeyCount(pool, id, priority)
    ensures pass == DropKey(id, priority) || pass == DropId(id) ==> KeyCount(Collect(pool, pass), id, priority) == 0
    ensures KeyCount(Collect(pool, ReloadActive), id, priority) + KeyCount(Collect(pool, ReloadExpired), id, priority)
            == KeyCount(pool, id, priority)
  {
    if pool != [] {
      CollectKeepsKeys(pool[1..], pass, id, priority);
      KeyCountConcat(AsSeq(Passed(pool[0], pass)), Collect(pool[1..], pass), id, priority);
      KeyCountConcat(AsSeq(Passed(pool[0], ReloadActive)), Collect(pool[1..], ReloadActive), id, priority);
      KeyCountConcat(AsSeq(Passed(pool[0], ReloadExpired)), Collect(pool[1..], ReloadExpired), id, priority);
      PassedKeepsKey(pool[0], pass, id, priority);
      PassedKeepsKey(pool[0], ReloadActive, id, priority);
      PassedKeepsKey(pool[0], ReloadExpired, id, priority);
    }
  }

  lemma PassedKeepsKey(m: ControlMap, pass: Pass, id: string, priority: int)
    ensures KeyCount(AsSeq(Passed(m, pass)), id, priority) <= if HasKey(m, id, priority) then 1 else 0
    ensures pass == DropKey(id, priority) || pass == DropId(id) ==> KeyCount(AsSeq(Passed(m, pass)), id, priority) == 0
    ensures !pass.DropKey? && !pass.DropId? && !pass.DropExpired? && !pass.ReloadActive? && !pass.ReloadExpired? ==>
              KeyCount(AsSeq(Passed(m, pass)), id, priority) == if HasKey(m, id, priority) then 1 else 0
    ensures pass == (if m.expired then ReloadExpired else ReloadActive) ==>
              KeyCount(AsSeq(Passed(m, pass)), id, priority) == if HasKey(m, id, priority) then 1 else 0
    ensures pass == (if m.expired then ReloadActive else ReloadExpired) ==>
        KeyCount(AsSeq(Passed(m, pass)), id, priority) == 0
  {
  }

  /** Every operation keeps at most one map for each ID and priority. */
  lemma OperationsKeepKeysUnique(pool: seq<ControlMap>, op: Op, after: seq<ControlMap>)
    requires UniqueKeys(pool) && multiset(after) == multiset(Do(pool, op))
    ensures UniqueKeys(after)
  {
    forall id, priority ensures KeyCount(after, id, priority) <= 1 {
      KeyCountPermutes(after, Do(pool, op), id, priority);
      match op
      case Query(state) => CollectKeepsKeys(pool, Ask(state, Deciding(pool, state)), id, priority);
      case Insert(m) =>
        CollectKeepsKeys(pool, DropKey(m.id, m.priority), id, priority);
        KeyCountConcat(Collect(pool, DropKey(m.id, m.priority)), [m], id, priority);
      case InsertReplaceAllPriorities(m) =>
        CollectKeepsKeys(pool, DropId(m.id), id, priority);
        KeyCountConcat(Collect(pool, DropId(m.id)), [m], id, priority);
      case Delete(i, p) => CollectKeepsKeys(pool, DropKey(i, p), id, priority);
      case DeleteAllPriorities(i) => CollectKeepsKeys(pool, DropId(i), id, priority);
      case ClearExpired => CollectKeepsKeys(pool, DropExpired, id, priority);
      case Expire(i, p) => CollectKeepsKeys(pool, ExpireKey(i, p), id, priority);
    }
  }

  predicate Drops(pass: Pass) { pass.DropKey? || pass.DropId? || pass.DropExpired? }

  /** A pass that drops maps loses only those it is meant to drop, and keeps the others as often as they were there. */
  lemma {:induction false} DropsOnlyRejected(pool: seq<ControlMap>, pass: Pass, m: ControlMap)
    requires Drops(pass)
    ensures multiset(Collect(pool, pass))[m] == if Passed(m, pass).Some? then multiset(pool)[m] else 0
  {
    hide Passed;
    if pool != [] {
      DropsOnlyRejected(pool[1..], pass, m);
      var (first, rest) := (AsSeq(Passed(pool[0], pass)), Collect(pool[1..], pass));
      assert pool == [pool[0]] + pool[1..];
      assert multiset(pool)[m] == multiset([pool[0]])[m] + multiset(pool[1..])[m];
      assert multiset(first + rest)[m] == multiset(first)[m] + multiset(rest)[m];
      DropKeepsAsIs(pool[0], pass);
    }
  }

  lemma DropKeepsAsIs(m: ControlMap, pass: Pass)
    requires Drops(pass)
    ensures Passed(m, pass) == None || Passed(m, pass) == Some(m)
  {
  }

  // ------------------------------------------------- what can be forgotten

  /** Two pools that differ only in order and in rules that never have a say. */
  predicate Same(a: seq<ControlMap>, b: seq<ControlMap>) {
    multiset(Collect(a, Normalize)) == multiset(Collect(b, Normalize))
  }

  /** What decoding lets into a pool. */
  predicate Proper(m: ControlMap) { Validate(m) && Filled(m) }

  predicate AllProper(pool: seq<ControlMap>) { forall m :: m in pool ==> Proper(m) }

  lemma {:induction false} InNormalized(pool: seq<ControlMap>, n: ControlMap)
    ensures n in Collect(pool, Normalize) <==> exists m :: m in pool && Norm(m) == n
  {
    if pool != [] {
      InNormalized(pool[1..], n);
      assert pool == [pool[0]] + pool[1..];
    }
  }

  lemma SameWants(a: seq<ControlMap>, b: seq<ControlMap>, state: string, priority: int, action: Action)
    requires Same(a, b) && action != Continue && Wants(a, state, priority, action)
    ensures Wants(b, state, priority, action)
  {
    hide Collect;
    var m :| m in a && m.priority == priority && state in m.states && Effective(m, state) == action;
    InNormalized(a, Norm(m));
    assert Norm(m) in multiset(Collect(b, Normalize));
    InNormalized(b, Norm(m));
    var m2 :| m2 in b && Norm(m2) == Norm(m);
    assert state in Norm(m).states;
    assert m2.states[state] == Norm(m2).states[state];
    assert Effective(m2, state) == action;
  }

  lemma SameVerdict(a: seq<ControlMap>, b: seq<ControlMap>, state: string, priority: int)
    requires Same(a, b)
    ensures Verdict(a, state, priority) == Verdict(b, state, priority)
  {
    hide Wants, Same;
    forall action: Action | action != Continue
      ensures Wants(a, state, priority, action) <==> Wants(b, state, priority, action)
    {
      if Wants(a, state, priority, action) { SameWants(a, b, state, priority, action); }
      SameIsSymmetric(a, b);
      if Wants(b, state, priority, action) { SameWants(b, a, state, priority, action); }
    }
  }

  lemma SameIsSymmetric(a: seq<ControlMap>, b: seq<ControlMap>)
    ensures Same(a, b) <==> Same(b, a)
  {
  }

  lemma SameAnswer(a: seq<ControlMap>, b: seq<ControlMap>, state: string)
    requires Same(a, b)
    ensures Deciding(a, state) == Deciding(b, state) && Answer(a, state) == Answer(b, state)
  {
    hide Same, Verdict;
    forall p ensures Verdict(a, state, p) == Verdict(b, state, p) { SameVerdict(a, b, state, p); }
    assert forall p :: Decides(a, state, p) <==> Decides(b, state, p);
    if p :| Decides(a, state, p) {
      DecidingIsTheOne(a, state, p);
      DecidingIsTheOne(b, state, p);
    }
  }

  // ----------------------------------------- operations respect the sameness

  function Bind(m: Option<ControlMap>, pass: Pass): Option<ControlMap> {
    if m.Some? then Passed(m.value, pass) else None
  }

  /** A pass that looks at the reloaded half of a pool is not repeated on a normalized map. */
  predicate Simple(pass: Pass) { !pass.ReloadActive? && !pass.ReloadExpired? }

  lemma PassCommutes(m: ControlMap, pass: Pass)
    requires Simple(pass)
    ensures Bind(Passed(m, pass), Normalize) == Bind(Passed(Norm(m), pass), Normalize)
  {
    assert Norm(Norm(m)) == Norm(m);
    if pass.Ask? {
      AskCommutes(m, pass.state, pass.deciding);
    } else if pass.ExpireKey? {
      var expired := m.(expired := true);
      assert Norm(expired) == Norm(m).(expired := true) == Norm(Norm(m).(expired := true));
    }
  }

  lemma AskCommutes(m: ControlMap, state: string, deciding: Option<int>)
    ensures Norm(Asked(m, state, deciding)) == Norm(Asked(Norm(m), state, deciding))
  {
    assert Norm(Asked(m, state, deciding)).states == Norm(Asked(Norm(m), state, deciding)).states;
  }

  lemma {:induction false} CollectCommutes(pool: seq<ControlMap>, pass: Pass)
    requires Simple(pass)
    ensures Collect(Collect(pool, pass), Normalize) == Collect(Collect(Collect(pool, Normalize), pass), Normalize)
  {
    hide Passed;
    if pool != [] {
      CollectCommutes(pool[1..], pass);
      var m := pool[0];
      PassCommutes(m, pass);
      NormalizeKeeps(m);
      CollectConcat(AsSeq(Passed(m, pass)), Collect(pool[1..], pass), Normalize);
      CollectConcat([Norm(m)], Collect(pool[1..], Normalize), pass);
      CollectConcat(Collect([Norm(m)], pass), Collect(Collect(pool[1..], Normalize), pass), Normalize);
      CollectOne(Norm(m), pass);
      CollectBind(Passed(m, pass));
      CollectBind(Passed(Norm(m), pass));
    }
  }

  lemma NormalizeKeeps(m: ControlMap)
    ensures Passed(m, Normalize) == Some(Norm(m))
  {
  }

  lemma CollectOne(m: ControlMap, pass: Pass)
    ensures Collect([m], pass) == AsSeq(Passed(m, pass))
  {
  }

  lemma CollectBind(m: Option<ControlMap>)
    ensures Collect(AsSeq(m), Normalize) == AsSeq(Bind(m, Normalize))
  {
  }

  lemma PassKeepsSame(a: seq<ControlMap>, b: seq<ControlMap>, pass: Pass)
    requires Same(a, b) && Simple(pass)
    ensures Same(Collect(a, pass), Collect(b, pass))
  {
    hide Collect;
    CollectCommutes(a, pass);
    CollectCommutes(b, pass);
    CollectPermutes(Collect(a, Normalize), Collect(b, Normalize), pass);
    CollectPermutes(Collect(Collect(a, Normalize), pass), Collect(Collect(b, Normalize), pass), Normalize);
  }

  lemma InsertKeepsSame(a: seq<ControlMap>, b: seq<ControlMap>, m: ControlMap)
    requires Same(a, b)
    ensures Same(a + [m], b + [m])
  {
    CollectConcat(a, [m], Normalize);
    CollectConcat(b, [m], Normalize);
  }

  lemma PermutationIsSame(a: seq<ControlMap>, b: seq<ControlMap>)
    requires multiset(a) == multiset(b)
    ensures Same(a, b)
  {
    CollectPermutes(a, b, Normalize);
  }

  lemma SameIsTransitive(a: seq<ControlMap>, b: seq<ControlMap>, c: seq<ControlMap>)
    requires Same(a, b) && Same(b, c)
    ensures Same(a, c)
  {
  }

  /** Sanitizing a filled map drops exactly the rules that never have a say. */
  lemma SanitizeIsNorm(m: ControlMap)
    requires Proper(m)
    ensures Sanitize(m) == Norm(m) && Norm(Sanitize(m)) == Norm(m)
  {
  }

  lemma {:induction false} ReloadNormalizes(pool: seq<ControlMap>)
    requires AllProper(pool)
    ensures multiset(Collect(Collect(pool, ReloadActive), Normalize))
            + multiset(Collect(Collect(pool, ReloadExpired), Normalize))
            == multiset(Collect(pool, Normalize))
  {
    hide Proper, Collect;
    if pool != [] {
      var m, rest := pool[0], pool[1..];
      ReloadNormalizes(rest);
      SanitizeIsNorm(m);
      ReloadFirst(m, rest);
      var half := if m.expired then ReloadExpired else ReloadActive;
      var (a, b) := (Collect(Collect(rest, half), Normalize), Collect(rest, Normalize));
      assert multiset([Norm(m)] + a) == multiset{Norm(m)} + multiset(a);
      assert multiset([Norm(m)] + b) == multiset{Norm(m)} + multiset(b);
      assert pool == [m] + rest;
    } else {
      NothingCollected(ReloadActive);
      NothingCollected(ReloadExpired);
      NothingCollected(Normalize);
    }
  }

  lemma NothingCollected(pass: Pass)
    ensures Collect([], pass) == []
  {
  }

  lemma ReloadFirst(m: ControlMap, rest: seq<ControlMap>)
    requires Norm(Sanitize(m)) == Norm(m)
    ensures var half := if m.expired then ReloadExpired else ReloadActive;
            var other := if m.expired then ReloadActive else ReloadExpired;
            && Collect([m] + rest, other) == Collect(rest, other)
            && Collect(Collect([m] + rest, half), Normalize) == [Norm(m)] + Collect(Collect(rest, half), Normalize)
            && Collect([m] + rest, Normalize) == [Norm(m)] + Collect(rest, Normalize)
  {
    hide Sanitize, Norm;
    var half := if m.expired then ReloadExpired else ReloadActive;
    var other := if m.expired then ReloadActive else ReloadExpired;
    CollectConcat([m], rest, other);
    CollectConcat([m], rest, half);
    CollectConcat([m], rest, Normalize);
    CollectConcat([Sanitize(m)], Collect(rest, half), Normalize);
    CollectOne(m, half);
    CollectOne(m, other);
    CollectOne(m, Normalize);
    CollectOne(Sanitize(m), Normalize);
  }

  /** The two halves of a saved pool, put together, are the pool in another order and without inert rules. */
  lemma HalvesAreSame(pool: seq<ControlMap>)
    requires AllProper(pool)
    ensures Same(Collect(pool, ReloadActive) + Collect(pool, ReloadExpired), pool)
  {
    hide Collect, Proper;
    ReloadNormalizes(pool);
    CollectConcat(Collect(pool, ReloadActive), Collect(pool, ReloadExpired), Normalize);
  }

  lemma PassKeepsProper(m: ControlMap, pass: Pass)
    requires Proper(m) && Passed(m, pass).Some?
    ensures Proper(Passed(m, pass).value)
  {
    match pass
    case Ask(state, deciding) =>
    case ReloadActive => SanitizeSettles(m);
    case ReloadExpired => SanitizeSettles(m);
    case Normalize =>
    case _ =>
  }

  lemma {:induction false} CollectKeepsProper(pool: seq<ControlMap>, pass: Pass)
    requires AllProper(pool)
    ensures AllProper(Collect(pool, pass))
  {
    hide Proper, Passed;
    if pool != [] {
      CollectKeepsProper(pool[1..], pass);
      if Passed(pool[0], pass).Some? { PassKeepsProper(pool[0], pass); }
    }
  }

  predicate Inserts(op: Op) { op.Insert? || op.InsertReplaceAllPriorities? }

  lemma OperationsKeepProper(pool: seq<ControlMap>, op: Op, after: seq<ControlMap>)
    requires AllProper(pool) && (Inserts(op) ==> Proper(op.m)) && multiset(after) == multiset(Do(pool, op))
    ensures AllProper(after)
  {
    hide Proper, Passed, Collect;
    forall pass ensures AllProper(Collect(pool, pass)) { CollectKeepsProper(pool, pass); }
    forall m | m in after ensures Proper(m) {
      assert m in multiset(Do(pool, op));
    }
  }

  lemma OperationsKeepSame(a: seq<ControlMap>, b: seq<ControlMap>, op: Op)
    requires Same(a, b)
    ensures Same(Do(a, op), Do(b, op))
  {
    hide Same, Collect, Passed;
    match op
    case Query(state) =>
      SameAnswer(a, b, state);
      PassKeepsSame(a, b, Ask(state, Deciding(a, state)));
    case Insert(m) =>
      PassKeepsSame(a, b, DropKey(m.id, m.priority));
      InsertKeepsSame(Collect(a, DropKey(m.id, m.priority)), Collect(b, DropKey(m.id, m.priority)), m);
    case InsertReplaceAllPriorities(m) =>
      PassKeepsSame(a, b, DropId(m.id));
      InsertKeepsSame(Collect(a, DropId(m.id)), Collect(b, DropId(m.id)), m);
    case Delete(id, priority) => PassKeepsSame(a, b, DropKey(id, priority));
    case DeleteAllPriorities(id) => PassKeepsSame(a, b, DropId(id));
    case ClearExpired => PassKeepsSame(a, b, DropExpired);
    case Expire(id, priority) => PassKeepsSame(a, b, ExpireKey(id, priority));
  }
}
