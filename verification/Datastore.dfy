/**
 The agent's database (datastore/datastore.go): the counted, two-key state record
 and the artifact keys. A transaction either happens as a whole or not at all.
 */
module Datastore {
  import opened Wrappers
  import opened StateData

  /** MaximumStateDataStoreCount. */
  const MAX_STORE_COUNT: nat := 30

  /** The value under artifact-provides: JSON null, or an object. */
  datatype TypeInfo = Null | Entries(entries: map<string, string>)

  datatype Artifact = Artifact(
    name: Option<string>,
    group: Option<string>,
    typeInfo: Option<TypeInfo>)

  datatype Db = Db(
    state: Option<Record>,
    uncommitted: Option<Record>,
    artifact: Artifact)

  /** How the database engine behaves in one write transaction. */
  datatype Fault =
    | NoFault
    | Refused     // the transaction never starts
    | Lost        // the body runs, but the commit fails

  datatype StoreResult = Stored | CountExceeded | StoreFailed

  /** What CommitArtifactData is called with. */
  datatype ArtifactCommit = ArtifactCommit(
    name: string,
    group: string,
    newProvides: Option<map<string, string>>,
    clears: Option<seq<string>>)

  /** What HandleBootstrapArtifact commits without a usable bootstrap Artifact: the name goes into two places. */
  const NO_BOOTSTRAP := ArtifactCommit("unknown", "", Some(map["artifact_name" := "unknown"]), None)

  /** Whether a name is matched by one of the patterns; the matching library is not modelled. */
  type Matcher = (string, seq<string>) -> bool

  // ------------------------------------------------------------- state record

  function Slot(db: Db, schemaUpdate: bool): Option<Record> {
    if schemaUpdate then db.uncommitted else db.state
  }

  /** The count a store of this info starts from. */
  function CountFor(db: Db, info: UpdateInfo): nat {
    var existing := Slot(db, info.schemaUpdate);
    if existing.Some? then existing.value.info.storeCount else info.storeCount
  }

  function NextCount(count: nat, increment: bool): nat {
    (if count >= MAX_STORE_COUNT then 0 else count) + (if increment then 1 else 0)
  }

  /** The transaction body of StoreStateDataAndTransaction, after the custom part. */
  function WriteRecord(db: Db, name: StateId, info: UpdateInfo, increment: bool): Db {
    var out := Record(CURRENT_VERSION, name,
                      info.(storeCount := NextCount(CountFor(db, info), increment)));
    if info.schemaUpdate then db.(uncommitted := Some(out))
    else db.(state := Some(out), uncommitted := None)
  }

  function StoreStateData(db: Db, name: StateId, info: UpdateInfo, increment: bool, fault: Fault)
    : (r: (Db, StoreResult))
  {
    StoreStateDataAndTransaction(db, name, info, increment, None, (_, _) => false, fault)
  }

  function StoreStateDataAndTransaction(
    db: Db, name: StateId, info: UpdateInfo, increment: bool,
    custom: Option<ArtifactCommit>, matches: Matcher, fault: Fault): (r: (Db, StoreResult))
  {
    var exceeded := CountFor(db, info) >= MAX_STORE_COUNT;
    var ran := if custom.Some? then CommitArtifactData(db, custom.value, matches) else db;
    match fault
    case Refused => (db, StoreFailed)
    case Lost => (db, if exceeded then CountExceeded else StoreFailed)
    case NoFault => (WriteRecord(ran, name, info, increment), if exceeded then CountExceeded else Stored)
  }

  datatype LoadResult = Loaded(record: Record) | LoadExceeded(record: Record) | NotFound | LoadFailed

  predicate OldVersion(r: Record) { r.version < CURRENT_VERSION }

  predicate OldState(db: Db) { db.state.Some? && OldVersion(db.state.value) }

  /** The record a reload starts from, before the count is touched; None when there is none usable. */
  function Recalled(db: Db): Option<Record> {
    if db.state.None? then None
    else if OldVersion(db.state.value) then
      var base := if db.uncommitted.Some? && db.uncommitted.value.info.id == db.state.value.info.id
                  then db.uncommitted.value else db.state.value;
      Some(base.(version := CURRENT_VERSION,
                 info := base.info.(payloadTypes := ["rootfs-image"],
                                    rebootRequested := [RebootCustom],
                                    supportsRollback := Supported,
                                    schemaUpdate := true)))
    else if db.state.value.version == CURRENT_VERSION then
      Some(db.state.value.(info := db.state.value.info.(schemaUpdate := false)))
    else None
  }

  function LoadStateData(db: Db, fault: Fault): (r: (Db, LoadResult)) {
    if fault.Refused? then (db, LoadFailed)
    else if db.state.None? then (db, NotFound)
    else if Recalled(db).None? then (db, LoadFailed)
    else
      var base := Recalled(db).value;
      var exceeded := base.info.storeCount >= MAX_STORE_COUNT;
      var sd := base.(info := base.info.(storeCount := NextCount(base.info.storeCount, true)));
      var written := if sd.info.schemaUpdate then db.(uncommitted := Some(sd)) else db.(state := Some(sd));
      if fault.Lost? then (db, if exceeded then LoadExceeded(sd) else LoadFailed)
      else (written, if exceeded then LoadExceeded(sd) else Loaded(sd))
  }

  // ------------------------------------------------------------ artifact keys

  /** getProvidesToPreserve. */
  function ProvidesToPreserve(a: Artifact, clears: seq<string>, matches: Matcher): map<string, string> {
    if a.typeInfo.None? || a.typeInfo.value.Null? then map[]
    else map k | k in a.typeInfo.value.entries && !matches(k, clears) :: a.typeInfo.value.entries[k]
  }

  function EntriesOf(p: Option<map<string, string>>): map<string, string> {
    if p.Some? then p.value else map[]
  }

  function CommittedArtifact(a: Artifact, c: ArtifactCommit, matches: Matcher): Artifact {
    var typeInfo :=
      if c.clears.None? then (if c.newProvides.None? then Null else Entries(c.newProvides.value))
      else Entries(ProvidesToPreserve(a, c.clears.value, matches) + EntriesOf(c.newProvides));
    var group :=
      if c.group != "" then Some(c.group)
      else if c.clears.None? || matches("artifact_group", c.clears.value) then None
      else a.group;
    Artifact(Some(c.name), group, Some(typeInfo))
  }

  function CommitArtifactData(db: Db, c: ArtifactCommit, matches: Matcher): Db {
    db.(artifact := CommittedArtifact(db.artifact, c, matches))
  }

  /** LoadProvides: the type-info entries are decoded over the name and the group. */
  function LoadProvides(a: Artifact): map<string, string> {
    (if a.name.Some? then map["artifact_name" := a.name.value] else map[])
    + (if a.group.Some? then map["artifact_group" := a.group.value] else map[])
    + (if a.typeInfo.Some? && a.typeInfo.value.Entries? then a.typeInfo.value.entries else map[])
  }
}
