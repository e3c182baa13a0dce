/**
 Storing and reloading the state record (datastore/datastore.go) over any sequence of
 transactions, including one that finds a record of the old schema: what the old agent
 wrote stays readable to it until the commit transaction replaces everything at once.
 */
module Migration {
  import opened Wrappers
  import opened StateData
  import opened Datastore

  datatype Transact =
    | Save(name: StateId, info: UpdateInfo, increment: bool, fault: Fault)
    | Reload(fault: Fault)

  function Apply(db: Db, t: Transact): Db {
    match t
    case Save(name, info, increment, fault) => StoreStateData(db, name, info, increment, fault).0
    case Reload(fault) => LoadStateData(db, fault).0
  }

  function ApplyAll(db: Db, ts: seq<Transact>): Db {
    if ts == [] then db else Apply(ApplyAll(db, ts[..|ts| - 1]), ts[|ts| - 1])
  }

  /** The last record whose transaction went through. */
  function LastSaved(start: Record, ts: seq<Transact>): Record {
    if ts == [] then start
    else
      var last := ts[|ts| - 1];
      if last.Save? && last.fault.NoFault? then Record(CURRENT_VERSION, last.name, last.info)
      else LastSaved(start, ts[..|ts| - 1])
  }

  /** What a migration fills in, since the old schema did not have it. */
  function Upgraded(info: UpdateInfo): UpdateInfo {
    info.(payloadTypes := ["rootfs-image"], rebootRequested := [RebootCustom], supportsRollback := Supported)
  }

  predicate SameButCount(a: UpdateInfo, b: UpdateInfo) { a == b.(storeCount := a.storeCount) }

  /** A save of the deployment that the loaded record belongs to. */
  predicate Continues(db: Db, t: Transact) {
    t.Save? ==> t.info.schemaUpdate == OldState(db) && (OldState(db) ==> t.info.id == db.state.value.info.id)
  }

  predicate Recalls(start: Db, db: Db, r: Record) {
    && OldState(db) == OldState(start) && db.artifact == start.artifact && db.state.Some?
    && (OldState(start) ==> db.state == start.state)
    && Recalled(db).Some? && Recalled(db).value.name == r.name
    && SameButCount(Recalled(db).value.info, if OldState(start) then Upgraded(r.info) else r.info)
  }

  /**
   Whatever is saved and reloaded in whatever order, a reload finds the last save that
   went through; and while the schema is being migrated, the old record is untouched.
   */
  lemma {:induction false} ReloadsTheLastSave(db: Db, ts: seq<Transact>)
    requires Recalled(db).Some? && forall t :: t in ts ==> Continues(db, t)
    ensures Recalls(db, ApplyAll(db, ts), LastSaved(Recalled(db).value, ts))
  {
    hide Apply, Recalled, LoadStateData, StoreStateData;
    if ts == [] {
      RecalledIsUpgraded(db);
    } else {
      var front, last := ts[..|ts| - 1], ts[|ts| - 1];
      ReloadsTheLastSave(db, front);
      ApplyRecalls(db, ApplyAll(db, front), LastSaved(Recalled(db).value, front), last);
    }
  }

  lemma RecalledIsUpgraded(db: Db)
    requires Recalled(db).Some?
    ensures Recalls(db, db, Recalled(db).value)
  {
  }

  lemma ApplyRecalls(start: Db, db: Db, r: Record, t: Transact)
    requires Recalls(start, db, r) && Continues(start, t)
    ensures Recalls(start, Apply(db, t),
                    if t.Save? && t.fault.NoFault? then Record(CURRENT_VERSION, t.name, t.info) else r)
  {
  }

  /**
   The commit transaction: nothing at all happens, or the new record, the removal of
   the temporary one and the artifact's own data appear together and for good.
   */
  lemma {:induction false} CommitIsAllOrNothing(db: Db, ts: seq<Transact>, after: seq<Transact>,
                                                info: UpdateInfo, c: ArtifactCommit, matches: Matcher, fault: Fault)
    requires Recalled(db).Some? && forall t :: t in ts ==> Continues(db, t)
    requires !info.schemaUpdate && forall t :: t in after ==> t.Save? ==> !t.info.schemaUpdate
    ensures var before := ApplyAll(db, ts);
            var (committed, r) := StoreStateDataAndTransaction(before, IdUpdateCommit, info, true, Some(c), matches,
                fault);
            if fault.NoFault? then
              var end := ApplyAll(committed, after);
              && committed.uncommitted.None? && !OldState(end)
              && end.artifact == CommittedArtifact(db.artifact, c, matches)
              && Recalled(end).Some?
                && Recalled(end).value.name == LastSaved(Record(CURRENT_VERSION, IdUpdateCommit, info), after).name
            else
              committed == before && !r.Stored? && committed.artifact == db.artifact
                && (OldState(db) ==> committed.state == db.state)
  {
    hide Apply, Recalled, LoadStateData, StoreStateData, CommittedArtifact;
    ReloadsTheLastSave(db, ts);
    var before := ApplyAll(db, ts);
    var (committed, r) := StoreStateDataAndTransaction(before, IdUpdateCommit, info, true, Some(c), matches, fault);
    if fault.NoFault? {
      CurrentIsRecalled(committed);
      ReloadsTheLastSave(committed, after);
      LastSavedName(Recalled(committed).value, Record(CURRENT_VERSION, IdUpdateCommit, info), after);
    }
  }

  lemma CurrentIsRecalled(db: Db)
    requires db.state.Some? && db.state.value.version == CURRENT_VERSION
    ensures !OldState(db) && Recalled(db).Some? && Recalled(db).value.name == db.state.value.name
  {
  }

  lemma {:induction false} LastSavedName(a: Record, b: Record, ts: seq<Transact>)
    requires a.name == b.name
    ensures LastSaved(a, ts).name == LastSaved(b, ts).name
  {
    if ts != [] { LastSavedName(a, b, ts[..|ts| - 1]); }
  }

  // ------------------------------------------------------------------ counts

  /** The record that a reload would find is the one that the next save counts on. */
  predicate CountsOn(db: Db) {
    OldState(db) ==> db.uncommitted.Some? && db.uncommitted.value.info.id == db.state.value.info.id
  }

  function Count(db: Db): nat { if Recalled(db).Some? then Recalled(db).value.info.storeCount else 0 }

  function Increments(t: Transact): nat { if t.Reload? || t.increment then 1 else 0 }

  /** One transaction: it counts from where the record stands, and over the limit it starts again from nothing. */
  lemma CountExactly(db: Db, t: Transact)
    requires Recalled(db).Some? && CountsOn(db) && Continues(db, t)
    ensures var db' := Apply(db, t);
            && CountsOn(db') && OldState(db') == OldState(db) && Recalled(db').Some?
            && (OldState(db) ==> db'.state == db.state)
            && Count(db') == (if !t.fault.NoFault? then Count(db)
                              else (if Count(db) < 30 then Count(db) else 0) + Increments(t))
  {
  }

  /** And what it says: over the limit is over the limit, even where the transaction is then lost. */
  lemma LimitExactly(db: Db, t: Transact)
    requires Recalled(db).Some? && CountsOn(db) && Continues(db, t)
    ensures t.Save? ==>
              StoreStateData(db, t.name, t.info, t.increment, t.fault).1 ==
                if t.fault.Refused? then StoreFailed
                else if Count(db) >= 30 then CountExceeded else if t.fault.Lost? then StoreFailed else Stored
    ensures t.Reload? ==>
              (LoadStateData(db, t.fault).1.LoadExceeded? <==> !t.fault.Refused? && Count(db) >= 30)
              && (LoadStateData(db, t.fault).1.Loaded? <==> t.fault.NoFault? && Count(db) < 30)
  {
  }

  /** Over any run of counted transactions the limit is met once in thirty. */
  lemma {:induction false} CountsInThirties(db: Db, ts: seq<Transact>)
    requires Recalled(db).Some? && CountsOn(db) && 0 < Count(db) <= 30
    requires forall t :: t in ts ==> Continues(db, t) && t.fault.NoFault? && Increments(t) == 1
    ensures var db' := ApplyAll(db, ts);
            && CountsOn(db') && OldState(db') == OldState(db) && Recalled(db').Some?
            && (OldState(db) ==> db'.state == db.state)
            && Count(db') == (Count(db) + |ts| - 1) % 30 + 1
  {
    hide Apply, Recalled, Count;
    if ts != [] {
      var front := ts[..|ts| - 1];
      CountsInThirties(db, front);
      CountExactly(ApplyAll(db, front), ts[|ts| - 1]);
      NextInThirty(Count(db) + |front| - 1);
    }
  }

  lemma NextInThirty(n: nat)
    ensures (n + 1) % 30 == if n % 30 + 1 < 30 then n % 30 + 1 else 0
  {
  }
}
