/**
 What queries can tell about a pool of update control maps: two pools answer every
 sequence of calls alike exactly when they show the same views, and so a restart changes
 some later answer exactly when it changes a view.
 */
module ControlMapViews {
  import opened Wrappers
  import opened ControlMaps
  import opened ControlMapRuns

  const LOWEST := -10

  /** What an action says to a query: nothing lies below the lowest priority that force_continue could hold off. */
  function Voice(a: Action, priority: int): Action {
    match a
    case Fail => Fail
    case Pause => Pause
    case ForceContinue => if priority > LOWEST then ForceContinue else Continue
    case _ => Continue
  }

  /** What a map shows of one state; an active one says something now, later, and once it has expired. */
  datatype View = Silent | Gone(said: Action) | Live(now: Action, later: Action, expired: Action)
  {
    function Now(): Action { match this case Silent => Continue case Gone(e) => e case Live(n, _, _) => n }

    function Later(): Action { match this case Silent => Continue case Gone(e) => e case Live(_, l, _) => l }

    function OnceExpired(): Action { match this case Silent => Continue case Gone(e) => e case Live(_, _, e) => e }
  }

  function Showing(now: Action, later: Action, expired: Action): View {
    if now == later == expired == Continue then Silent else Live(now, later, expired)
  }

  function ShowingGone(said: Action): View { if said == Continue then Silent else Gone(said) }

  function ViewOf(m: ControlMap, state: string): View {
    if state !in m.states then Silent
    else
      var r := m.states[state];
      var e := Voice(r.onExpire, m.priority);
      if m.expired then ShowingGone(e) else Showing(Voice(r.action, m.priority), Voice(r.onExecuted, m.priority), e)
  }

  /** The map with this key. */
  function Find(pool: seq<ControlMap>, id: string, priority: int): Option<ControlMap> {
    if pool == [] then None
    else if HasKey(pool[0], id, priority) then Some(pool[0])
    else Find(pool[1..], id, priority)
  }

  function ViewIn(m: Option<ControlMap>, state: string): View { if m.Some? then ViewOf(m.value, state) else Silent }

  function ViewAt(pool: seq<ControlMap>, id: string, priority: int, state: string): View {
    ViewIn(Find(pool, id, priority), state)
  }

  ghost predicate Alike(a: seq<ControlMap>, b: seq<ControlMap>) {
    forall id, priority, state :: ViewAt(a, id, priority, state) == ViewAt(b, id, priority, state)
  }

  /** A pool as it comes from validated maps and the pool's own operations. */
  ghost predicate WellKept(pool: seq<ControlMap>) { AllProper(pool) && UniqueKeys(pool) }

  // ------------------------------------------------------------- finding a map

  lemma {:induction false} FindIn(pool: seq<ControlMap>, id: string, priority: int)
    ensures var m := Find(pool, id, priority);
            if m.Some? then m.value in pool && HasKey(m.value, id, priority) && KeyCount(pool, id, priority) > 0
            else KeyCount(pool, id, priority) == 0
  {
    if pool != [] {
      FindIn(pool[1..], id, priority);
      assert pool == [pool[0]] + pool[1..];
    }
  }

  lemma {:induction false} FindsMember(pool: seq<ControlMap>, m: ControlMap)
    requires m in pool && KeyCount(pool, m.id, m.priority) <= 1
    ensures Find(pool, m.id, m.priority) == Some(m)
  {
    assert pool == [pool[0]] + pool[1..];
    if m in pool[1..] {
      CountsMember(pool[1..], m);
      FindsMember(pool[1..], m);
    }
  }

  lemma {:induction false} CountsMember(pool: seq<ControlMap>, m: ControlMap)
    requires m in pool
    ensures KeyCount(pool, m.id, m.priority) > 0
  {
    assert pool == [pool[0]] + pool[1..];
    if m in pool[1..] { CountsMember(pool[1..], m); }
  }

  lemma {:induction false} FindConcat(a: seq<ControlMap>, b: seq<ControlMap>, id: string, priority: int)
    ensures Find(a + b, id, priority)
            == if Find(a, id, priority).Some? then Find(a, id, priority) else Find(b, id, priority)
  {
    if a == [] {
      assert a + b == b;
    } else {
      assert (a + b)[1..] == a[1..] + b && (a + b)[0] == a[0];
      FindConcat(a[1..], b, id, priority);
    }
  }

  /** A pass works on the map with a key alone. */
  lemma {:induction false} FindPassed(pool: seq<ControlMap>, pass: Pass, id: string, priority: int)
    requires KeyCount(pool, id, priority) <= 1
    ensures Find(Collect(pool, pass), id, priority) == Bind(Find(pool, id, priority), pass)
  {
    hide Passed;
    if pool != [] {
      FindPassed(pool[1..], pass, id, priority);
      FindIn(pool[1..], id, priority);
      PassKeepsKey(pool[0], pass);
      FindConcat(AsSeq(Passed(pool[0], pass)), Collect(pool[1..], pass), id, priority);
      FindOne(Passed(pool[0], pass), id, priority);
    }
  }

  lemma FindOne(m: Option<ControlMap>, id: string, priority: int)
    ensures Find(AsSeq(m), id, priority) == if m.Some? && HasKey(m.value, id, priority) then m else None
  {
  }

  lemma PassKeepsKey(m: ControlMap, pass: Pass)
    ensures Passed(m, pass).Some? ==>
              Passed(m, pass).value.id == m.id && Passed(m, pass).value.priority == m.priority
  {
  }

  // ------------------------------------------------- views decide the answer

  ghost predicate Heard(pool: seq<ControlMap>, state: string, priority: int, a: Action) {
    exists id :: ViewAt(pool, id, priority, state).Now() == a
  }

  predicate Loud(a: Action, priority: int) { a.Fail? || a.Pause? || (a.ForceContinue? && priority > LOWEST) }

  lemma ViewSpeaks(m: ControlMap, state: string, a: Action)
    requires Loud(a, m.priority)
    ensures ViewOf(m, state).Now() == a <==> state in m.states && Effective(m, state) == a
  {
  }

  lemma WantedIsHeard(pool: seq<ControlMap>, state: string, priority: int, a: Action)
    requires WellKept(pool) && Loud(a, priority)
    ensures Wants(pool, state, priority, a) <==> Heard(pool, state, priority, a)
  {
    hide ViewOf, AllProper, Effective;
    if Wants(pool, state, priority, a) {
      var m :| m in pool && m.priority == priority && state in m.states && Effective(m, state) == a;
      FindsMember(pool, m);
      ViewSpeaks(m, state, a);
      assert ViewAt(pool, m.id, priority, state).Now() == a;
    }
    if id :| ViewAt(pool, id, priority, state).Now() == a {
      FindIn(pool, id, priority);
      var m := Find(pool, id, priority).value;
      ViewSpeaks(m, state, a);
      assert Effective(m, state) == a;
    }
  }

  lemma NoneBelow(pool: seq<ControlMap>, state: string, priority: int)
    requires AllProper(pool) && priority < LOWEST
    ensures Verdict(pool, state, priority).None?
  {
    forall m | m in pool ensures m.priority >= LOWEST { assert Proper(m); }
  }

  lemma AlikeVerdict(a: seq<ControlMap>, b: seq<ControlMap>, state: string, priority: int)
    requires WellKept(a) && WellKept(b) && Alike(a, b)
    ensures priority != LOWEST ==> Verdict(a, state, priority) == Verdict(b, state, priority)
    ensures Wants(a, state, priority, Fail) <==> Wants(b, state, priority, Fail)
    ensures Wants(a, state, priority, Pause) <==> Wants(b, state, priority, Pause)
  {
    hide WellKept, Wants;
    AlikeHears(a, b, state, priority, Fail);
    AlikeHears(a, b, state, priority, Pause);
    if priority > LOWEST { AlikeHears(a, b, state, priority, ForceContinue); }
    if priority < LOWEST {
      KeptIsProper(a);
      KeptIsProper(b);
      NoneBelow(a, state, priority);
      NoneBelow(b, state, priority);
    }
  }

  lemma KeptIsProper(pool: seq<ControlMap>)
    ensures WellKept(pool) ==> AllProper(pool) && UniqueKeys(pool)
  {
  }

  lemma AlikeHears(a: seq<ControlMap>, b: seq<ControlMap>, state: string, priority: int, action: Action)
    requires WellKept(a) && WellKept(b) && Alike(a, b)
    requires Loud(action, priority)
    ensures Wants(a, state, priority, action) <==> Wants(b, state, priority, action)
  {
    hide WellKept, Wants, ViewAt;
    WantedIsHeard(a, state, priority, action);
    WantedIsHeard(b, state, priority, action);
    HeardAlike(a, b, state, priority, action);
  }

  lemma HeardAlike(a: seq<ControlMap>, b: seq<ControlMap>, state: string, priority: int, action: Action)
    requires Alike(a, b)
    ensures Heard(a, state, priority, action) <==> Heard(b, state, priority, action)
  {
    hide ViewAt;
  }

  /** Every map is asked unless a priority above the lowest decides; and that is the same one. */
  lemma AlikeAnswer(a: seq<ControlMap>, b: seq<ControlMap>, state: string)
    requires WellKept(a) && WellKept(b) && Alike(a, b)
    ensures Answer(a, state) == Answer(b, state)
    ensures Deciding(a, state) == Deciding(b, state)
            || (AsksAll(Deciding(a, state)) && AsksAll(Deciding(b, state)))
  {
    hide WellKept, Alike;
    forall p
      ensures p != LOWEST ==> Verdict(a, state, p) == Verdict(b, state, p)
      ensures Wants(a, state, p, Fail) <==> Wants(b, state, p, Fail)
      ensures Wants(a, state, p, Pause) <==> Wants(b, state, p, Pause)
    {
      AlikeVerdict(a, b, state, p);
    }
    KeptIsProper(a);
    KeptIsProper(b);
    if p :| p > LOWEST && Decides(a, state, p) {
      DecidingAbove(a, b, state, p);
    } else if p :| p > LOWEST && Decides(b, state, p) {
      DecidingAbove(b, a, state, p);
    } else {
      LowestAnswers(a, state);
      LowestAnswers(b, state);
    }
  }

  predicate AsksAll(deciding: Option<int>) { deciding.None? || deciding.value <= LOWEST }

  lemma DecidingAbove(a: seq<ControlMap>, b: seq<ControlMap>, state: string, p: int)
    requires p > LOWEST && Decides(a, state, p)
    requires forall q :: q != LOWEST ==> Verdict(a, state, q) == Verdict(b, state, q)
    ensures Deciding(a, state) == Deciding(b, state) == Some(p) && Answer(a, state) == Answer(b, state)
  {
    hide Verdict;
    assert Decides(b, state, p);
    DecidingIsTheOne(a, state, p);
    DecidingIsTheOne(b, state, p);
  }

  /** When only the lowest priority is left, force_continue and silence are the same answer. */
  lemma LowestAnswers(pool: seq<ControlMap>, state: string)
    requires AllProper(pool) && forall p :: p > LOWEST ==> !Decides(pool, state, p)
    ensures AsksAll(Deciding(pool, state))
    ensures Answer(pool, state) == if Wants(pool, state, LOWEST, Fail) then Fail
                                   else if Wants(pool, state, LOWEST, Pause) then Pause
                                   else Continue
  {
    hide Wants;
    if Verdict(pool, state, LOWEST).Some? { SomethingDecides(pool, state, LOWEST); }
    if p :| Decides(pool, state, p) {
      DecidingIsTheOne(pool, state, p);
      if p < LOWEST { NoneBelow(pool, state, p); }
    }
  }

  // ------------------------------------------------------- views after a call

  /** What a pass makes of a view. */
  function After(v: View, id: string, priority: int, state: string, pass: Pass): View {
    match pass
    case Ask(s, deciding) =>
      if s == state && v.Live? && (deciding.None? || priority >= deciding.value)
      then Showing(v.later, v.later, v.expired) else v
    case DropKey(i, p) => if i == id && p == priority then Silent else v
    case DropId(i) => if i == id then Silent else v
    case DropExpired => if v.Gone? then Silent else v
    case ExpireKey(i, p) => if i == id && p == priority && v.Live? then ShowingGone(v.expired) else v
    case _ => v
  }

  lemma ViewPassed(m: ControlMap, pass: Pass, state: string)
    requires Simple(pass) && !pass.Normalize?
    ensures ViewIn(Passed(m, pass), state) == After(ViewOf(m, state), m.id, m.priority, state, pass)
  {
  }

  lemma ViewAfterPass(pool: seq<ControlMap>, pass: Pass, id: string, priority: int, state: string)
    requires UniqueKeys(pool) && Simple(pass) && !pass.Normalize?
    ensures ViewAt(Collect(pool, pass), id, priority, state)
            == After(ViewAt(pool, id, priority, state), id, priority, state, pass)
  {
    hide Collect, Passed, ViewOf;
    FindPassed(pool, pass, id, priority);
    FindIn(pool, id, priority);
    var m := Find(pool, id, priority);
    if m.Some? { ViewPassed(m.value, pass, state); }
  }

  lemma ViewAfterInsert(pool: seq<ControlMap>, m: ControlMap, id: string, priority: int, state: string)
    requires Find(pool, m.id, m.priority).None?
    ensures ViewAt(pool + [m], id, priority, state)
            == if HasKey(m, id, priority) then ViewOf(m, state) else ViewAt(pool, id, priority, state)
  {
    hide ViewOf;
    FindConcat(pool, [m], id, priority);
  }

  lemma PassKeepsAlike(a: seq<ControlMap>, b: seq<ControlMap>, pass: Pass)
    requires UniqueKeys(a) && UniqueKeys(b) && Alike(a, b) && Simple(pass) && !pass.Normalize?
    ensures Alike(Collect(a, pass), Collect(b, pass))
  {
    hide Collect, ViewAt, UniqueKeys;
    forall id, priority, state
      ensures ViewAt(Collect(a, pass), id, priority, state) == ViewAt(Collect(b, pass), id, priority, state)
    {
      ViewAfterPass(a, pass, id, priority, state);
      ViewAfterPass(b, pass, id, priority, state);
    }
  }

  /** Asking every map is one pass, however it is put. */
  lemma AskingAll(pool: seq<ControlMap>, state: string, deciding: Option<int>)
    requires AllProper(pool) && AsksAll(deciding)
    ensures Collect(pool, Ask(state, deciding)) == Collect(pool, Ask(state, None))
  {
    if pool != [] {
      assert Proper(pool[0]);
      AskingAll(pool[1..], state, deciding);
    }
  }

  lemma InsertKeepsAlike(a: seq<ControlMap>, b: seq<ControlMap>, m: ControlMap)
    requires Alike(a, b) && Find(a, m.id, m.priority).None? && Find(b, m.id, m.priority).None?
    ensures Alike(a + [m], b + [m])
  {
    hide ViewAt;
    forall id, priority, state
      ensures ViewAt(a + [m], id, priority, state) == ViewAt(b + [m], id, priority, state)
    {
      ViewAfterInsert(a, m, id, priority, state);
      ViewAfterInsert(b, m, id, priority, state);
    }
  }

  lemma DroppedIsGone(pool: seq<ControlMap>, m: ControlMap)
    ensures Find(Collect(pool, DropKey(m.id, m.priority)), m.id, m.priority).None?
    ensures Find(Collect(pool, DropId(m.id)), m.id, m.priority).None?
  {
    CollectKeepsKeys(pool, DropKey(m.id, m.priority), m.id, m.priority);
    CollectKeepsKeys(pool, DropId(m.id), m.id, m.priority);
    FindIn(Collect(pool, DropKey(m.id, m.priority)), m.id, m.priority);
    FindIn(Collect(pool, DropId(m.id)), m.id, m.priority);
  }

  lemma CallKeepsAlike(a: seq<ControlMap>, b: seq<ControlMap>, op: Op)
    requires WellKept(a) && WellKept(b) && Alike(a, b)
    ensures Alike(Do(a, op), Do(b, op)) && (op.Query? ==> Answer(a, op.state) == Answer(b, op.state))
  {
    hide Alike, Collect, Answer, AllProper, UniqueKeys;
    match op
    case Query(state) =>
      AlikeAnswer(a, b, state);
      var deciding := Deciding(a, state);
      if deciding == Deciding(b, state) {
        PassKeepsAlike(a, b, Ask(state, deciding));
      } else {
        AskingAll(a, state, deciding);
        AskingAll(b, state, Deciding(b, state));
        PassKeepsAlike(a, b, Ask(state, None));
      }
    case Insert(m) =>
      PassKeepsAlike(a, b, DropKey(m.id, m.priority));
      DroppedIsGone(a, m);
      DroppedIsGone(b, m);
      InsertKeepsAlike(Collect(a, DropKey(m.id, m.priority)), Collect(b, DropKey(m.id, m.priority)), m);
    case InsertReplaceAllPriorities(m) =>
      PassKeepsAlike(a, b, DropId(m.id));
      DroppedIsGone(a, m);
      DroppedIsGone(b, m);
      InsertKeepsAlike(Collect(a, DropId(m.id)), Collect(b, DropId(m.id)), m);
    case Delete(id, priority) => PassKeepsAlike(a, b, DropKey(id, priority));
    case DeleteAllPriorities(id) => PassKeepsAlike(a, b, DropId(id));
    case ClearExpired => PassKeepsAlike(a, b, DropExpired);
    case Expire(id, priority) => PassKeepsAlike(a, b, ExpireKey(id, priority));
  }

  // -------------------------------------------------- whole sequences of calls

  /** What a sequence of calls and expiries is answered; the order inside the pool does not matter to it. */
  ghost function Answered(pool: seq<ControlMap>, ops: seq<Op>): seq<Action>
    decreases |ops|
  {
    if ops == [] then []
    else (if ops[0].Query? then [Answer(pool, ops[0].state)] else []) + Answered(Do(pool, ops[0]), ops[1..])
  }

  /** Only validated maps are inserted. */
  predicate ProperCalls(ops: seq<Op>) { forall op :: op in ops && Inserts(op) ==> Proper(op.m) }

  lemma CallKeepsWell(pool: seq<ControlMap>, op: Op)
    requires WellKept(pool) && (Inserts(op) ==> Proper(op.m))
    ensures WellKept(Do(pool, op))
  {
    hide Do, AllProper, UniqueKeys, Proper;
    OperationsKeepProper(pool, op, Do(pool, op));
    OperationsKeepKeysUnique(pool, op, Do(pool, op));
  }

  lemma {:induction false} AlikeAnswered(a: seq<ControlMap>, b: seq<ControlMap>, ops: seq<Op>)
    requires WellKept(a) && WellKept(b) && Alike(a, b) && ProperCalls(ops)
    ensures Answered(a, ops) == Answered(b, ops)
    decreases |ops|
  {
    hide WellKept, Alike, Do, Proper, Answer;
    if ops != [] {
      var op := ops[0];
      assert op in ops && forall o :: o in ops[1..] ==> o in ops;
      CallKeepsAlike(a, b, op);
      CallKeepsWell(a, op);
      CallKeepsWell(b, op);
      AlikeAnswered(Do(a, op), Do(b, op), ops[1..]);
    }
  }

  // ------------------------------------------------- calls that tell pools apart

  ghost function DoAll(pool: seq<ControlMap>, ops: seq<Op>): seq<ControlMap>
    decreases |ops|
  {
    if ops == [] then pool else DoAll(Do(pool, ops[0]), ops[1..])
  }

  lemma {:induction false} AnsweredConcat(pool: seq<ControlMap>, x: seq<Op>, y: seq<Op>)
    ensures Answered(pool, x + y) == Answered(pool, x) + Answered(DoAll(pool, x), y)
    decreases |x|
  {
    hide Do, Answer;
    if x == [] {
      assert x + y == y;
    } else {
      assert (x + y)[0] == x[0] && (x + y)[1..] == x[1..] + y;
      AnsweredConcat(Do(pool, x[0]), x[1..], y);
    }
  }

  lemma {:induction false} CallsKeepWell(pool: seq<ControlMap>, ops: seq<Op>)
    requires WellKept(pool) && ProperCalls(ops)
    ensures WellKept(DoAll(pool, ops))
    decreases |ops|
  {
    hide WellKept, Do, Proper;
    if ops != [] {
      assert ops[0] in ops && forall o :: o in ops[1..] ==> o in ops;
      CallKeepsWell(pool, ops[0]);
      CallsKeepWell(Do(pool, ops[0]), ops[1..]);
    }
  }

  /** The last answers differ. */
  lemma LastAnswerTells(a: seq<ControlMap>, b: seq<ControlMap>, ops: seq<Op>, state: string)
    requires Answer(DoAll(a, ops), state) != Answer(DoAll(b, ops), state)
    ensures Answered(a, ops + [Query(state)]) != Answered(b, ops + [Query(state)])
  {
    hide Do, Answer, DoAll, Answered;
    AnsweredConcat(a, ops, [Query(state)]);
    AnsweredConcat(b, ops, [Query(state)]);
    OneAnswer(DoAll(a, ops), state);
    OneAnswer(DoAll(b, ops), state);
    var (x, y) := (Answered(a, ops), Answered(b, ops));
    assert (x + [Answer(DoAll(a, ops), state)])[|x|] == Answer(DoAll(a, ops), state);
    assert (y + [Answer(DoAll(b, ops), state)])[|y|] == Answer(DoAll(b, ops), state);
  }

  lemma OneAnswer(pool: seq<ControlMap>, state: string)
    ensures Answered(pool, [Query(state)]) == [Answer(pool, state)]
  {
    hide Do, Answer;
  }

  /** All other maps are deleted, so that only this key is left to say anything. */
  function Deletes(maps: seq<ControlMap>, id: string, priority: int): seq<Op> {
    if maps == [] then []
    else (if HasKey(maps[0], id, priority) then [] else [Delete(maps[0].id, maps[0].priority)])
         + Deletes(maps[1..], id, priority)
  }

  lemma {:induction false} DeletesAreProper(maps: seq<ControlMap>, id: string, priority: int)
    ensures forall op :: op in Deletes(maps, id, priority) ==> op.Delete?
  {
    if maps != [] { DeletesAreProper(maps[1..], id, priority); }
  }

  predicate HoldsKey(maps: seq<ControlMap>, id: string, priority: int) {
    exists m :: m in maps && HasKey(m, id, priority)
  }

  lemma {:induction false} DeletedViews(pool: seq<ControlMap>, maps: seq<ControlMap>, id: string, priority: int,
                                        i: string, q: int, state: string)
    requires WellKept(pool)
    ensures var after := DoAll(pool, Deletes(maps, id, priority));
            ViewAt(after, i, q, state)
            == if (i != id || q != priority) && HoldsKey(maps, i, q) then Silent else ViewAt(pool, i, q, state)
    decreases |maps|
  {
    hide ViewAt, Do, WellKept;
    if maps != [] {
      var m := maps[0];
      assert maps == [m] + maps[1..];
      assert HoldsKey(maps, i, q) <==> HasKey(m, i, q) || HoldsKey(maps[1..], i, q);
      if HasKey(m, id, priority) {
        assert Deletes(maps, id, priority) == Deletes(maps[1..], id, priority);
        DeletedViews(pool, maps[1..], id, priority, i, q, state);
      } else {
        var rest := Deletes(maps[1..], id, priority);
        assert ([Delete(m.id, m.priority)] + rest)[1..] == rest;
        CallKeepsWell(pool, Delete(m.id, m.priority));
        DeletedViews(Do(pool, Delete(m.id, m.priority)), maps[1..], id, priority, i, q, state);
        ViewAfterDelete(pool, m, i, q, state);
      }
    }
  }

  lemma ViewAfterDelete(pool: seq<ControlMap>, m: ControlMap, i: string, q: int, state: string)
    requires WellKept(pool)
    ensures ViewAt(Do(pool, Delete(m.id, m.priority)), i, q, state)
            == if HasKey(m, i, q) then Silent else ViewAt(pool, i, q, state)
  {
    hide ViewAt;
    ViewAfterPass(pool, DropKey(m.id, m.priority), i, q, state);
  }

  /** No other key shows anything. */
  ghost predicate Lone(pool: seq<ControlMap>, id: string, priority: int) {
    forall i, q, state :: i != id || q != priority ==> ViewAt(pool, i, q, state) == Silent
  }

  lemma Isolated(pool: seq<ControlMap>, maps: seq<ControlMap>, id: string, priority: int, state: string)
    requires WellKept(pool) && forall m :: m in pool ==> m in maps
    ensures var after := DoAll(pool, Deletes(maps, id, priority));
            Lone(after, id, priority) && ViewAt(after, id, priority, state) == ViewAt(pool, id, priority, state)
  {
    hide WellKept, DoAll;
    var after := DoAll(pool, Deletes(maps, id, priority));
    forall i, q, s | i != id || q != priority ensures ViewAt(after, i, q, s) == Silent {
      DeletedViews(pool, maps, id, priority, i, q, s);
      FindIn(pool, i, q);
      if Find(pool, i, q).Some? { assert HoldsKey(maps, i, q); }
    }
    DeletedViews(pool, maps, id, priority, id, priority, state);
  }

  // -------------------------------------------------- what a lone map is heard to say

  /** x is said at a priority above the lowest, y at the lowest; nothing else is said. */
  ghost predicate Said(pool: seq<ControlMap>, state: string, priority: int, x: Action, y: Action) {
    forall q, a :: Loud(a, q) ==>
      (Wants(pool, state, q, a) <==> (q == priority && a == x) || (q == LOWEST && a == y))
  }

  function Amounts(x: Action, y: Action): Action {
    if x.Fail? || x.Pause? then x
    else if x.ForceContinue? then Continue
    else if y.Fail? || y.Pause? then y
    else Continue
  }

  lemma SaidIsAnswered(pool: seq<ControlMap>, state: string, priority: int, x: Action, y: Action)
    requires AllProper(pool) && Said(pool, state, priority, x, y) && priority > LOWEST
    ensures Answer(pool, state) == Amounts(x, y)
    ensures if x.Fail? || x.Pause? || x.ForceContinue? then Deciding(pool, state) == Some(priority)
            else AsksAll(Deciding(pool, state))
  {
    hide AllProper;
    forall q | q > LOWEST
      ensures Verdict(pool, state, q).Some? <==> q == priority && (x.Fail? || x.Pause? || x.ForceContinue?)
    {
      SaidVerdict(pool, state, priority, x, y, q);
    }
    if x.Fail? || x.Pause? || x.ForceContinue? {
      SaidVerdict(pool, state, priority, x, y, priority);
      assert Decides(pool, state, priority);
      DecidingIsTheOne(pool, state, priority);
    } else {
      LowestAnswers(pool, state);
      assert Loud(Fail, LOWEST) && Loud(Pause, LOWEST);
    }
  }

  lemma SaidVerdict(pool: seq<ControlMap>, state: string, priority: int, x: Action, y: Action, q: int)
    requires Said(pool, state, priority, x, y) && q > LOWEST
    ensures Verdict(pool, state, q)
            == if q != priority then None
               else if x.Fail? || x.Pause? then Some(x)
               else if x.ForceContinue? then Some(Continue)
               else None
  {
    hide Wants;
    assert Loud(Fail, q) && Loud(Pause, q) && Loud(ForceContinue, q);
  }

  lemma LoneWants(pool: seq<ControlMap>, id: string, priority: int, state: string, q: int, a: Action)
    requires WellKept(pool) && Lone(pool, id, priority) && Loud(a, q)
    ensures Wants(pool, state, q, a) <==> q == priority && ViewAt(pool, id, priority, state).Now() == a
  {
    hide WellKept, ViewAt, Wants;
    WantedIsHeard(pool, state, q, a);
    if q == priority && ViewAt(pool, id, q, state).Now() == a { assert Heard(pool, state, q, a); }
  }

  /** What a query is answered when a single key says something. */
  lemma LoneAnswer(pool: seq<ControlMap>, id: string, priority: int, state: string)
    requires WellKept(pool) && Lone(pool, id, priority) && priority >= LOWEST
    ensures Answer(pool, state) == Amounts(ViewAt(pool, id, priority, state).Now(), Continue)
    ensures Deciding(pool, state).None? || Deciding(pool, state).value <= priority
  {
    hide WellKept, ViewAt, Wants;
    var now := ViewAt(pool, id, priority, state).Now();
    forall q, a | Loud(a, q)
      ensures Wants(pool, state, q, a) <==> q == priority && now == a
    {
      LoneWants(pool, id, priority, state, q, a);
    }
    KeptIsProper(pool);
    if priority > LOWEST {
      SaidIsAnswered(pool, state, priority, now, Continue);
    } else {
      NowIsVoiced(pool, id, priority, state);
      SaidIsAnswered(pool, state, 0, Continue, now);
    }
  }

  lemma NowIsVoiced(pool: seq<ControlMap>, id: string, priority: int, state: string)
    ensures priority == LOWEST ==> !ViewAt(pool, id, priority, state).Now().ForceContinue?
  {
    FindIn(pool, id, priority);
  }

  /** A map below all others that fails whatever is not held off. */
  function Backstop(id: string, state: string): ControlMap {
    ControlMap(id, LOWEST, map[state := Rule(Fail, Fail, Fail)], false)
  }

  /** What a query is answered when the backstop lies below that key. */
  lemma BackstopAnswer(pool: seq<ControlMap>, id: string, priority: int, state: string)
    requires WellKept(pool) && Lone(pool, id, priority) && priority > LOWEST && Proper(Backstop(id, state))
    ensures Answer(Do(pool, Insert(Backstop(id, state))), state)
            == Amounts(ViewAt(pool, id, priority, state).Now(), Fail)
  {
    hide WellKept, ViewAt, Wants, Proper, Collect;
    var m := Backstop(id, state);
    var after := Do(pool, Insert(m));
    CallKeepsWell(pool, Insert(m));
    forall i, q ensures ViewAt(after, i, q, state)
        == if i == id && q == LOWEST then Live(Fail, Fail, Fail) else ViewAt(pool, i, q, state) {
      BackstopView(pool, id, state, i, q);
    }
    var now := ViewAt(pool, id, priority, state).Now();
    forall q, a | Loud(a, q)
      ensures Wants(after, state, q, a) <==> (q == priority && a == now) || (q == LOWEST && a == Fail)
    {
      WantedIsHeard(after, state, q, a);
      if q == priority && a == now { assert ViewAt(after, id, q, state).Now() == a; }
      if q == LOWEST && a == Fail { assert ViewAt(after, id, q, state).Now() == a; }
    }
    KeptIsProper(after);
    SaidIsAnswered(after, state, priority, now, Fail);
  }

  lemma BackstopView(pool: seq<ControlMap>, id: string, state: string, i: string, q: int)
    requires WellKept(pool)
    ensures ViewAt(Do(pool, Insert(Backstop(id, state))), i, q, state)
            == if i == id && q == LOWEST then Live(Fail, Fail, Fail) else ViewAt(pool, i, q, state)
  {
    hide ViewAt, Collect;
    var m := Backstop(id, state);
    ViewAfterPass(pool, DropKey(m.id, m.priority), i, q, state);
    DroppedIsGone(pool, m);
    ViewAfterInsert(Collect(pool, DropKey(m.id, m.priority)), m, i, q, state);
  }

  // -------------------------------------------------------- the telling sequence

  /** The calls after which two different views of a key differ in what they say now. */
  function Sharpening(v: View, w: View, id: string, priority: int, state: string): seq<Op> {
    if v.Now() != w.Now() then []
    else if v.Later() != w.Later() then [Query(state)]
    else if v.OnceExpired() != w.OnceExpired() then [Expire(id, priority)]
    else [ClearExpired]
  }

  /** A view as a map can show it. */
  predicate Shown(v: View) {
    match v
    case Silent => true
    case Gone(e) => e != Continue
    case Live(n, l, e) => !(n == l == e == Continue)
  }

  lemma ViewIsShown(pool: seq<ControlMap>, id: string, priority: int, state: string)
    ensures Shown(ViewAt(pool, id, priority, state))
  {
  }

  function Sharpened(v: View, op: Op): View {
    match op
    case Query(_) => if v.Live? then Showing(v.later, v.later, v.expired) else v
    case Expire(_, _) => if v.Live? then ShowingGone(v.expired) else v
    case _ => if v.Gone? then Silent else v
  }

  lemma SharpeningTells(v: View, w: View, id: string, priority: int, state: string)
    requires Shown(v) && Shown(w) && v != w
    ensures var ops := Sharpening(v, w, id, priority, state);
            if ops == [] then v.Now() != w.Now()
            else ops == [ops[0]] && Sharpened(v, ops[0]).Now() != Sharpened(w, ops[0]).Now()
                 && (ops[0] == Query(state) || ops[0] == Expire(id, priority) || ops[0] == ClearExpired)
  {
  }

  lemma SharpenedView(pool: seq<ControlMap>, id: string, priority: int, state: string, op: Op)
    requires WellKept(pool) && Lone(pool, id, priority) && priority >= LOWEST
    requires op == Query(state) || op == Expire(id, priority) || op == ClearExpired
    ensures Lone(Do(pool, op), id, priority)
    ensures ViewAt(Do(pool, op), id, priority, state) == Sharpened(ViewAt(pool, id, priority, state), op)
  {
    hide ViewAt, Collect, AllProper;
    LoneAnswer(pool, id, priority, state);
    var pass := match op
      case Query(_) => Ask(state, Deciding(pool, state))
      case Expire(_, _) => ExpireKey(id, priority)
      case _ => DropExpired;
    forall i, q, s
      ensures ViewAt(Do(pool, op), i, q, s) == After(ViewAt(pool, i, q, s), i, q, s, pass)
    {
      ViewAfterPass(pool, pass, i, q, s);
    }
  }

  lemma {:induction false} DoAllConcat(pool: seq<ControlMap>, x: seq<Op>, y: seq<Op>)
    ensures DoAll(pool, x + y) == DoAll(DoAll(pool, x), y)
    decreases |x|
  {
    hide Do;
    if x == [] {
      assert x + y == y;
    } else {
      assert (x + y)[0] == x[0] && (x + y)[1..] == x[1..] + y;
      DoAllConcat(Do(pool, x[0]), x[1..], y);
    }
  }

  lemma ShownByProper(pool: seq<ControlMap>, id: string, priority: int, state: string)
    requires WellKept(pool) && ViewAt(pool, id, priority, state) != Silent
    ensures priority >= LOWEST && Proper(Backstop(id, state))
  {
    hide UniqueKeys;
    FindIn(pool, id, priority);
    var m := Find(pool, id, priority).value;
    assert Proper(m);
  }

  /** One key is isolated in both pools, and its two views are made to differ in what they say now. */
  lemma Sharpens(a: seq<ControlMap>, b: seq<ControlMap>, id: string, priority: int, state: string)
    returns (ops: seq<Op>)
    requires WellKept(a) && WellKept(b) && priority >= LOWEST
    requires ViewAt(a, id, priority, state) != ViewAt(b, id, priority, state)
    ensures ProperCalls(ops)
    ensures var (x, y) := (DoAll(a, ops), DoAll(b, ops));
            && WellKept(x) && WellKept(y) && Lone(x, id, priority) && Lone(y, id, priority)
            && ViewAt(x, id, priority, state).Now() != ViewAt(y, id, priority, state).Now()
  {
    hide WellKept, ViewAt, DoAll, Lone, Do, Proper;
    var first := Deletes(a + b, id, priority);
    DeletesAreProper(a + b, id, priority);
    Isolated(a, a + b, id, priority, state);
    Isolated(b, a + b, id, priority, state);
    var (a1, b1) := (DoAll(a, first), DoAll(b, first));
    CallsKeepWell(a, first);
    CallsKeepWell(b, first);
    var (v, w) := (ViewAt(a, id, priority, state), ViewAt(b, id, priority, state));
    ViewIsShown(a, id, priority, state);
    ViewIsShown(b, id, priority, state);
    SharpeningTells(v, w, id, priority, state);
    var sharpen := Sharpening(v, w, id, priority, state);
    ops := first + sharpen;
    DoAllConcat(a, first, sharpen);
    DoAllConcat(b, first, sharpen);
    if sharpen == [] {
      assert ops == first;
    } else {
      SharpenedView(a1, id, priority, state, sharpen[0]);
      SharpenedView(b1, id, priority, state, sharpen[0]);
      CallKeepsWell(a1, sharpen[0]);
      CallKeepsWell(b1, sharpen[0]);
      DoOne(a1, sharpen[0]);
      DoOne(b1, sharpen[0]);
    }
  }

  lemma DoOne(pool: seq<ControlMap>, op: Op)
    ensures DoAll(pool, [op]) == Do(pool, op)
  {
    hide Do;
  }

  /** Different views can be told apart. */
  lemma TellsApart(a: seq<ControlMap>, b: seq<ControlMap>, id: string, priority: int, state: string)
    returns (ops: seq<Op>)
    requires WellKept(a) && WellKept(b)
    requires ViewAt(a, id, priority, state) != ViewAt(b, id, priority, state)
    ensures ProperCalls(ops) && Answered(a, ops) != Answered(b, ops)
  {
    hide WellKept, ViewAt, DoAll, Lone, Do, Proper, Answer, Answered;
    if ViewAt(a, id, priority, state) != Silent { ShownByProper(a, id, priority, state); }
    else { ShownByProper(b, id, priority, state); }
    ops := Sharpens(a, b, id, priority, state);
    var (x, y) := (DoAll(a, ops), DoAll(b, ops));
    LoneAnswer(x, id, priority, state);
    LoneAnswer(y, id, priority, state);
    if Answer(x, state) == Answer(y, state) {
      NowIsVoiced(x, id, priority, state);
      NowIsVoiced(y, id, priority, state);
      SayIsNamed(x, id, priority, state);
      SayIsNamed(y, id, priority, state);
      var last := [Insert(Backstop(id, state))];
      BackstopAnswer(x, id, priority, state);
      BackstopAnswer(y, id, priority, state);
      DoAllConcat(a, ops, last);
      DoAllConcat(b, ops, last);
      DoOne(x, last[0]);
      DoOne(y, last[0]);
      ops := ops + last;
    }
    LastAnswerTells(a, b, ops, state);
    ops := ops + [Query(state)];
  }

  lemma SayIsNamed(pool: seq<ControlMap>, id: string, priority: int, state: string)
    ensures var now := ViewAt(pool, id, priority, state).Now();
            now.Fail? || now.Pause? || now.ForceContinue? || now == Continue
  {
  }

  /** Two pools answer all calls alike exactly when they show the same views. */
  lemma AnsweredAlikeExactly(a: seq<ControlMap>, b: seq<ControlMap>)
    requires WellKept(a) && WellKept(b)
    ensures Alike(a, b) <==> forall ops :: ProperCalls(ops) ==> Answered(a, ops) == Answered(b, ops)
  {
    hide WellKept, ViewAt, Answered, ProperCalls;
    if Alike(a, b) {
      forall ops | ProperCalls(ops) ensures Answered(a, ops) == Answered(b, ops) { AlikeAnswered(a, b, ops); }
    } else {
      var id, priority, state :| ViewAt(a, id, priority, state) != ViewAt(b, id, priority, state);
      var ops := TellsApart(a, b, id, priority, state);
    }
  }

  // ------------------------------------------------------------------ restarts

  /** Some later calls are answered in another way after a restart than without one. */
  ghost predicate Noticed(w: World) {
    exists ops :: ProperCalls(ops) && Answered(Restored(w.saved), ops) != Answered(w.pool, ops)
  }

  /** A restart changes the answer of some later calls exactly when it changes a view. */
  lemma RestartIsNoticedExactly(w: World)
    requires WellKept(w.pool) && WellKept(Restored(w.saved))
    ensures Noticed(w) <==> !Alike(Restored(w.saved), w.pool)
  {
    hide WellKept, Alike, Answered, ProperCalls, Restored;
    AnsweredAlikeExactly(Restored(w.saved), w.pool);
  }

  lemma NormShowsTheSame(m: ControlMap, state: string)
    requires Proper(m)
    ensures ViewOf(Norm(m), state) == ViewOf(m, state)
  {
  }

  lemma SameShows(a: seq<ControlMap>, b: seq<ControlMap>, id: string, priority: int, state: string)
    requires WellKept(a) && WellKept(b) && Same(a, b) && Find(a, id, priority).Some?
    ensures ViewAt(a, id, priority, state) == ViewAt(b, id, priority, state)
  {
    hide Collect, ViewOf, Proper;
    FindIn(a, id, priority);
    var m := Find(a, id, priority).value;
    InNormalized(a, Norm(m));
    assert Norm(m) in multiset(Collect(b, Normalize));
    InNormalized(b, Norm(m));
    var m2 :| m2 in b && Norm(m2) == Norm(m);
    FindsMember(b, m2);
    NormShowsTheSame(m, state);
    NormShowsTheSame(m2, state);
  }

  lemma SameIsAlike(a: seq<ControlMap>, b: seq<ControlMap>)
    requires WellKept(a) && WellKept(b) && Same(a, b)
    ensures Alike(a, b)
  {
    hide WellKept, Same, Find, ViewOf;
    SameIsSymmetric(a, b);
    forall id, priority, state
      ensures ViewAt(a, id, priority, state) == ViewAt(b, id, priority, state)
    {
      if Find(a, id, priority).Some? { SameShows(a, b, id, priority, state); }
      else if Find(b, id, priority).Some? { SameShows(b, a, id, priority, state); }
    }
  }

  /** A forgotten expiry is noticed exactly when the map was active with a rule that ever says anything. */
  lemma ExpiryIsNoticedExactly(w: World, e: Event)
    requires WellKept(w.pool) && WellKept(Restored(w.saved)) && WellKept(e.after.pool)
    requires Settled(w) && Happens(w, e) && e.step.Call? && e.step.op.Expire?
    ensures Noticed(e.after) <==> exists state :: ViewAt(w.pool, e.step.op.id, e.step.op.priority, state).Live?
  {
    hide WellKept, Same, Restored, Noticed, ViewAt, Do, Alike;
    var op := e.step.op;
    var (restored, expired) := (Restored(w.saved), Do(w.pool, op));
    CallKeepsWell(w.pool, op);
    SameIsAlike(restored, w.pool);
    PermutationIsSame(e.after.pool, expired);
    SameIsAlike(e.after.pool, expired);
    RestartIsNoticedExactly(e.after);
    AlikeIsTransitive(restored, w.pool, expired);
    AlikeIsTransitive(restored, expired, e.after.pool);
    AlikeIsTransitive(w.pool, restored, expired);
    AlikeIsSymmetric(restored, w.pool);
    AlikeIsSymmetric(e.after.pool, expired);
    AlikeIsTransitive(restored, e.after.pool, expired);
    ExpiryShowsExactly(w.pool, op.id, op.priority);
  }

  lemma AlikeIsSymmetric(a: seq<ControlMap>, b: seq<ControlMap>)
    ensures Alike(a, b) <==> Alike(b, a)
  {
    hide ViewAt;
  }

  lemma AlikeIsTransitive(a: seq<ControlMap>, b: seq<ControlMap>, c: seq<ControlMap>)
    ensures Alike(a, b) && Alike(b, c) ==> Alike(a, c)
  {
    hide ViewAt;
  }

  lemma ExpiryShowsExactly(pool: seq<ControlMap>, id: string, priority: int)
    requires WellKept(pool)
    ensures Alike(pool, Do(pool, Expire(id, priority))) <==> !exists state :: ViewAt(pool, id, priority, state).Live?
  {
    hide ViewAt, Collect, AllProper, UniqueKeys;
    var after := Do(pool, Expire(id, priority));
    forall i, q, state
      ensures ViewAt(after, i, q, state) == After(ViewAt(pool, i, q, state), i, q, state, ExpireKey(id, priority))
    {
      ViewAfterPass(pool, ExpireKey(id, priority), i, q, state);
    }
    if state :| ViewAt(pool, id, priority, state).Live? {
      assert !ViewAt(after, id, priority, state).Live?;
    }
  }
}
