/**
 The database as the agent updates it (datastore/datastore.go): a transaction works
 on its own copy of the keys, key by key, and replaces the database when it commits.
 Each method is proved against the function of module Datastore that describes it.
 */
module Store {
  import opened Wrappers
  import opened StateData
  import D = Datastore

  /** The entries of list that the patterns match, in their order. */
  function Matched(list: seq<string>, patterns: seq<string>, matches: D.Matcher): seq<string> {
    if list == [] then []
    else (if matches(list[0], patterns) then [list[0]] else []) + Matched(list[1..], patterns, matches)
  }

  lemma {:induction false} MatchedAre(list: seq<string>, patterns: seq<string>, matches: D.Matcher, s: string)
    ensures s in Matched(list, patterns, matches) <==> s in list && matches(s, patterns)
  {
    if list == [] {
    } else {
      MatchedAre(list[1..], patterns, matches, s);
      assert list == [list[0]] + list[1..];
    }
  }

  method KeysOf(entries: map<string, string>) returns (list: seq<string>)
    ensures forall k :: k in list <==> k in entries
  {
    list := [];
    var keys := entries.Keys;
    while keys != {}
      invariant keys <= entries.Keys
      invariant forall k :: k in list <==> k in entries.Keys - keys
      decreases |keys|
    {
      var k :| k in keys;
      list, keys := list + [k], keys - {k};
    }
  }

  method WithoutKeys(entries: map<string, string>, list: seq<string>) returns (left: map<string, string>)
    ensures left == map k | k in entries && k !in list :: entries[k]
  {
    left := entries;
    var i := 0;
    while i < |list|
      invariant 0 <= i <= |list|
      invariant forall k :: k in left <==> k in entries && k !in list[..i]
      invariant forall k :: k in left ==> left[k] == entries[k]
    {
      left := left - {list[i]};
      i := i + 1;
    }
    assert list[..i] == list;
  }

  method Overridden(entries: map<string, string>, added: map<string, string>) returns (merged: map<string, string>)
    ensures merged == entries + added
  {
    merged := entries;
    var keys := added.Keys;
    while keys != {}
      invariant keys <= added.Keys
      invariant merged.Keys == entries.Keys + (added.Keys - keys)
      invariant forall k :: k in merged ==> merged[k] == if k in added && k !in keys then added[k] else entries[k]
      decreases |keys|
    {
      var k :| k in keys;
      merged, keys := merged[k := added[k]], keys - {k};
    }
  }

  class Transaction {
    var state: Option<Record>
    var uncommitted: Option<Record>
    var name: Option<string>
    var group: Option<string>
    var typeInfo: Option<D.TypeInfo>

    function Contents(): D.Db
      reads this
    {
      D.Db(state, uncommitted, D.Artifact(name, group, typeInfo))
    }

    constructor (db: D.Db)
      ensures Contents() == db
    {
      state, uncommitted := db.state, db.uncommitted;
      name, group, typeInfo := db.artifact.name, db.artifact.group, db.artifact.typeInfo;
    }

    method GetProvidesToPreserve(clears: seq<string>, matches: D.Matcher) returns (kept: map<string, string>)
      ensures kept == D.ProvidesToPreserve(Contents().artifact, clears, matches)
    {
      if typeInfo.None? { return map[]; }
      var inStore := if typeInfo.value.Null? then map[] else typeInfo.value.entries;
      var list := KeysOf(inStore);
      var entriesToRemove := Matched(list, clears, matches);
      kept := WithoutKeys(inStore, entriesToRemove);
      forall k ensures k in entriesToRemove <==> k in inStore && matches(k, clears) {
        MatchedAre(list, clears, matches, k);
      }
      assert kept == map k | k in inStore && !matches(k, clears) :: inStore[k];
    }

    method CommitArtifactData(c: D.ArtifactCommit, matches: D.Matcher)
      modifies this
      ensures Contents() == D.CommitArtifactData(old(Contents()), c, matches)
    {
      name := Some(c.name);
      var toCommit := if c.newProvides.None? then D.Null else D.Entries(c.newProvides.value);
      if c.clears.Some? {
        var entries := GetProvidesToPreserve(c.clears.value, matches);
        entries := Overridden(entries, D.EntriesOf(c.newProvides));
        toCommit := D.Entries(entries);
      }
      typeInfo := Some(toCommit);
      if c.group == "" {
        var removeGroup := false;
        if c.clears.None? {
          removeGroup := true;
        } else {
          var entriesToRemove := Matched(["artifact_group"], c.clears.value, matches);
          MatchedAre(["artifact_group"], c.clears.value, matches, "artifact_group");
          if |entriesToRemove| > 0 { MatchedAre(["artifact_group"], c.clears.value, matches, entriesToRemove[0]); }
          removeGroup := |entriesToRemove| > 0;
        }
        if removeGroup { group := None; }
      } else {
        group := Some(c.group);
      }
    }

    /** The counted record; exceeded says that the count was at its maximum. */
    method WriteRecord(recordName: StateId, info: UpdateInfo, increment: bool) returns (exceeded: bool)
      modifies this
      ensures Contents() == D.WriteRecord(old(Contents()), recordName, info, increment)
      ensures exceeded <==> D.CountFor(old(Contents()), info) >= D.MAX_STORE_COUNT
    {
      ghost var before := Contents();
      var count := info.storeCount;
      var existing := if info.schemaUpdate then uncommitted else state;
      if existing.Some? { count := existing.value.info.storeCount; }
      assert count == D.CountFor(before, info);
      exceeded := false;
      if count >= D.MAX_STORE_COUNT { count, exceeded := 0, true; }
      if increment { count := count + 1; }
      assert count == D.NextCount(D.CountFor(before, info), increment);
      hide D.CountFor, D.NextCount;
      var written := Some(Record(CURRENT_VERSION, recordName, info.(storeCount := count)));
      if info.schemaUpdate {
        uncommitted := written;
      } else {
        uncommitted := None;
        state := written;
      }
    }
  }

  class Database {
    var committed: D.Db

    constructor (db: D.Db)
      ensures committed == db
    {
      committed := db;
    }

    method StoreStateDataAndTransaction(
      name: StateId, info: UpdateInfo, increment: bool,
      custom: Option<D.ArtifactCommit>, matches: D.Matcher, fault: D.Fault) returns (result: D.StoreResult)
      modifies this
      ensures (committed, result) ==
              D.StoreStateDataAndTransaction(old(committed), name, info, increment, custom, matches, fault)
    {
      if fault.Refused? { return D.StoreFailed; }
      var txn := new Transaction(committed);
      if custom.Some? { txn.CommitArtifactData(custom.value, matches); }
      var exceeded := txn.WriteRecord(name, info, increment);
      if fault.NoFault? { committed := txn.Contents(); }
      result := if exceeded then D.CountExceeded else if fault.Lost? then D.StoreFailed else D.Stored;
    }

    method LoadStateData(fault: D.Fault) returns (result: D.LoadResult)
      modifies this
      ensures (committed, result) == D.LoadStateData(old(committed), fault)
    {
      if fault.Refused? { return D.LoadFailed; }
      var txn := new Transaction(committed);
      if txn.state.None? { return D.NotFound; }
      var sd := txn.state.value;
      if sd.version > CURRENT_VERSION { return D.LoadFailed; }
      if D.OldVersion(sd) {
        if txn.uncommitted.Some? && sd.info.id == txn.uncommitted.value.info.id { sd := txn.uncommitted.value; }
        sd := sd.(info := sd.info.(payloadTypes := ["rootfs-image"], rebootRequested := [RebootCustom],
                                   supportsRollback := Supported, schemaUpdate := true));
      } else {
        sd := sd.(info := sd.info.(schemaUpdate := false));
      }
      sd := sd.(version := CURRENT_VERSION);
      var exceeded := false;
      if sd.info.storeCount >= D.MAX_STORE_COUNT {
        sd, exceeded := sd.(info := sd.info.(storeCount := 0)), true;
      }
      sd := sd.(info := sd.info.(storeCount := sd.info.storeCount + 1));
      if sd.info.schemaUpdate { txn.uncommitted := Some(sd); } else { txn.state := Some(sd); }
      if fault.NoFault? { committed := txn.Contents(); }
      result := if exceeded then D.LoadExceeded(sd) else if fault.Lost? then D.LoadFailed else D.Loaded(sd);
    }

    method LoadProvides() returns (loaded: map<string, string>)
      ensures loaded == D.LoadProvides(committed.artifact)
    {
      loaded := map[];
      if committed.artifact.name.Some? { loaded := loaded["artifact_name" := committed.artifact.name.value]; }
      if committed.artifact.group.Some? { loaded := loaded["artifact_group" := committed.artifact.group.value]; }
      if committed.artifact.typeInfo.Some? && committed.artifact.typeInfo.value.Entries? {
        loaded := loaded + committed.artifact.typeInfo.value.entries;
      }
    }
  }
}
