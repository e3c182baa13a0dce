/**
 What a device provides, over any sequence of committed artifacts. LoadProvides reads
 three database keys; seen through it, a commit is one operation on one map: forget
 what clears_artifact_provides matches (everything when there is no such list), then
 override. The artifact group is an ordinary provide of that map.
 */
module Provides {
  import opened Wrappers
  import opened Datastore

  const NAME := "artifact_name"
  const GROUP := "artifact_group"

  /** Whether committing c forgets the provide k. */
  predicate Forgets(c: ArtifactCommit, k: string, matches: Matcher) {
    c.clears.None? || matches(k, c.clears.value)
  }

  /** What committing c provides under k itself, if anything. */
  function Given(c: ArtifactCommit, k: string): Option<string> {
    if k == NAME then Some(c.name)
    else if k == GROUP && c.group != "" then Some(c.group)
    else if k in EntriesOf(c.newProvides) then Some(EntriesOf(c.newProvides)[k])
    else None
  }

  /** The type-info entries that a commit writes. */
  function WrittenEntries(a: Artifact, c: ArtifactCommit, matches: Matcher): map<string, string> {
    (if c.clears.None? then map[] else ProvidesToPreserve(a, c.clears.value, matches)) + EntriesOf(c.newProvides)
  }

  /** The entries that will be stored do not contradict the two keys kept outside them. */
  predicate ReservedAgree(a: Artifact, c: ArtifactCommit, matches: Matcher) {
    var e := WrittenEntries(a, c, matches);
    && (NAME in e ==> e[NAME] == c.name)
    && (GROUP in e && c.group != "" ==> e[GROUP] == c.group)
  }

  function Lookup(m: map<string, string>, k: string): Option<string> { if k in m then Some(m[k]) else None }

  /** One commit, key by key: what it gives, else what was there and is not forgotten. */
  predicate OverridesAt(before: map<string, string>, after: map<string, string>, c: ArtifactCommit, k: string,
                        matches: Matcher)
  {
    Lookup(after, k) ==
      if Given(c, k).Some? then Given(c, k) else if Forgets(c, k, matches) then None else Lookup(before, k)
  }

  lemma CommitAt(a: Artifact, c: ArtifactCommit, k: string, matches: Matcher)
    ensures var e := WrittenEntries(a, c, matches);
            var after := LoadProvides(CommittedArtifact(a, c, matches));
            Lookup(after, k) ==
              if k in e then Some(e[k])
              else if k == NAME then Some(c.name)
              else if k == GROUP then CommittedArtifact(a, c, matches).group
              else None
  {
    assert NAME != GROUP;
  }

  lemma LoadAt(a: Artifact, k: string)
    ensures var e := if a.typeInfo.Some? && a.typeInfo.value.Entries? then a.typeInfo.value.entries else map[];
            Lookup(LoadProvides(a), k) ==
              if k in e then Some(e[k]) else if k == NAME then a.name else if k == GROUP then a.group else None
  {
    assert NAME != GROUP;
  }

  /** A commit overrides what the device provided, exactly when the reserved keys agree. */
  lemma CommitOverrides(a: Artifact, c: ArtifactCommit, matches: Matcher)
    ensures (forall k :: OverridesAt(LoadProvides(a), LoadProvides(CommittedArtifact(a, c, matches)), c, k, matches))
            <==> ReservedAgree(a, c, matches)
  {
    hide LoadProvides;
    var before, after := LoadProvides(a), LoadProvides(CommittedArtifact(a, c, matches));
    forall k
      ensures k != NAME && k != GROUP ==> OverridesAt(before, after, c, k, matches)
      ensures ReservedAgree(a, c, matches) ==> OverridesAt(before, after, c, k, matches)
    {
      CommitAt(a, c, k, matches);
      LoadAt(a, k);
    }
    if !ReservedAgree(a, c, matches) {
      CommitAt(a, c, NAME, matches);
      CommitAt(a, c, GROUP, matches);
      assert !OverridesAt(before, after, c, NAME, matches) || !OverridesAt(before, after, c, GROUP, matches);
    }
  }

  /** The two keys can disagree: an artifact whose own provides name another artifact_name. */
  lemma ReservedKeyWins(a: Artifact, matches: Matcher)
    ensures var c := ArtifactCommit("new", "", Some(map[NAME := "other"]), None);
            LoadProvides(CommittedArtifact(a, c, matches))[NAME] == "other"
  {
    var c := ArtifactCommit("new", "", Some(map[NAME := "other"]), None);
    CommitAt(a, c, NAME, matches);
  }

  // ------------------------------------------------------ sequences of commits

  predicate NoReserved(m: map<string, string>) { NAME !in m && GROUP !in m }

  predicate OrdinaryEntries(a: Artifact) {
    a.typeInfo.Some? && a.typeInfo.value.Entries? ==> NoReserved(a.typeInfo.value.entries)
  }

  function CommitAll(a: Artifact, commits: seq<ArtifactCommit>, matches: Matcher): Artifact {
    if commits == [] then a
    else CommittedArtifact(CommitAll(a, commits[..|commits| - 1], matches), commits[|commits| - 1], matches)
  }

  /** The last commit that gives k decides, unless a later one forgets it. */
  function Latest(start: map<string, string>, commits: seq<ArtifactCommit>, k: string,
      matches: Matcher): Option<string> {
    if commits == [] then Lookup(start, k)
    else
      var last := commits[|commits| - 1];
      if Given(last, k).Some? then Given(last, k)
      else if Forgets(last, k, matches) then None
      else Latest(start, commits[..|commits| - 1], k, matches)
  }

  /** After any sequence of commits, the device provides the latest value of every key that is still there. */
  lemma {:induction false} LastWriterWins(a: Artifact, commits: seq<ArtifactCommit>, matches: Matcher)
    requires OrdinaryEntries(a) && forall c :: c in commits ==> NoReserved(EntriesOf(c.newProvides))
    ensures OrdinaryEntries(CommitAll(a, commits, matches))
    ensures forall k :: Lookup(LoadProvides(CommitAll(a, commits, matches)), k)
                        == Latest(LoadProvides(a), commits, k, matches)
  {
    hide LoadProvides, CommittedArtifact;
    if commits == [] {
    } else {
      var front, last := commits[..|commits| - 1], commits[|commits| - 1];
      LastWriterWins(a, front, matches);
      var before := CommitAll(a, front, matches);
      CommitKeepsOrdinary(before, last, matches);
      CommitOverrides(before, last, matches);
      var after := CommittedArtifact(before, last, matches);
      forall k
        ensures Lookup(LoadProvides(after), k) == Latest(LoadProvides(a), commits, k, matches)
      {
        assert OverridesAt(LoadProvides(before), LoadProvides(after), last, k, matches);
      }
    }
  }

  lemma CommitKeepsOrdinary(a: Artifact, c: ArtifactCommit, matches: Matcher)
    requires OrdinaryEntries(a) && NoReserved(EntriesOf(c.newProvides))
    ensures OrdinaryEntries(CommittedArtifact(a, c, matches)) && ReservedAgree(a, c, matches)
  {
  }

  // --------------------------------------------- a device without a bootstrap Artifact

  function StoredEntry(a: Artifact, k: string): Option<string> {
    if a.typeInfo.Some? && a.typeInfo.value.Entries? then Lookup(a.typeInfo.value.entries, k) else None
  }

  predicate SomeForgets(commits: seq<ArtifactCommit>, k: string, matches: Matcher) {
    exists c :: c in commits && Forgets(c, k, matches)
  }

  lemma EntryAfterCommit(a: Artifact, c: ArtifactCommit, matches: Matcher)
    requires NoReserved(EntriesOf(c.newProvides))
    ensures StoredEntry(CommittedArtifact(a, c, matches), NAME)
            == if Forgets(c, NAME, matches) then None else StoredEntry(a, NAME)
  {
  }

  lemma {:induction false} UnknownEntryStays(a: Artifact, commits: seq<ArtifactCommit>, matches: Matcher)
    requires StoredEntry(a, NAME) == Some("unknown")
    requires forall c :: c in commits ==> NoReserved(EntriesOf(c.newProvides))
    ensures StoredEntry(CommitAll(a, commits, matches), NAME)
            == if SomeForgets(commits, NAME, matches) then None else Some("unknown")
  {
    hide CommittedArtifact, Forgets;
    if commits != [] {
      var front, last := commits[..|commits| - 1], commits[|commits| - 1];
      UnknownEntryStays(a, front, matches);
      EntryAfterCommit(CommitAll(a, front, matches), last, matches);
      assert commits == front + [last];
      assert SomeForgets(commits, NAME, matches) <==>
             SomeForgets(front, NAME, matches) || Forgets(last, NAME, matches);
    }
  }

  /**
   A device that started without a bootstrap Artifact goes on providing the name
   "unknown" whatever is committed, until a commit clears artifact_name or everything.
   */
  lemma UnknownNameStaysExactly(a: Artifact, commits: seq<ArtifactCommit>, matches: Matcher)
    requires commits != [] && forall c :: c in commits ==> NoReserved(EntriesOf(c.newProvides))
    ensures var after := CommitAll(CommittedArtifact(a, NO_BOOTSTRAP, matches), commits, matches);
            && after.name == Some(commits[|commits| - 1].name)
            && Lookup(LoadProvides(after), NAME)
               == if SomeForgets(commits, NAME, matches) then after.name else Some("unknown")
  {
    hide LoadProvides, SomeForgets;
    var start := CommittedArtifact(a, NO_BOOTSTRAP, matches);
    UnknownEntryStays(start, commits, matches);
    LoadAt(CommitAll(start, commits, matches), NAME);
  }
}
