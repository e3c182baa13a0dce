/**
 The boot environment kept in files (installer/file_bootenv.go). Its writes are not
 atomic, so their order matters: upgrade_available comes last. A trace records every
 state of the files that a crash can leave, torn writes included.
 */
module FileBootEnv {
  import opened Wrappers
  import opened Digits
  import opened Partitions

  /** What the files hold; fat is None on a board without a FAT boot partition. */
  datatype Files = Files(bootPart: string, slot: string, upgradeAvailable: string, bootcount: string,
      fat: Option<string>)

  datatype FileId = BootPartFile | SlotFile | UpgradeAvailableFile | BootcountFile | FatFile

  function With(f: Files, id: FileId, content: string): Files {
    match id
    case BootPartFile => f.(bootPart := content)
    case SlotFile => f.(slot := content)
    case UpgradeAvailableFile => f.(upgradeAvailable := content)
    case BootcountFile => f.(bootcount := content)
    case FatFile => f.(fat := Some(content))
  }

  /** One file is as it was, or holds a part of what is being written; the others are untouched. */
  predicate Torn(before: Files, after: Files, id: FileId, content: string) {
    after == before || exists k :: 0 <= k <= |content| && after == With(before, id, content[..k])
  }

  /** Once upgrade_available can be read as 1, everything the boot looks at names the target. */
  predicate Safe(f: Files, target: string) {
    f.upgradeAvailable == "1" ==> Names(f, target)
  }

  predicate Names(f: Files, target: string) { f.bootPart == target && (f.fat.Some? ==> f.fat.value == target) }

  predicate SameFlags(f: Files, g: Files) {
    f.upgradeAvailable == g.upgradeAvailable && f.bootcount == g.bootcount && (f.fat.Some? <==> g.fat.Some?)
  }

  predicate SameButFat(f: Files, g: Files) { f == g.(fat := f.fat) && (f.fat.Some? <==> g.fat.Some?) }

  predicate IsBootVar(name: string) { name == "mender_boot_part" || name == "mender_boot_part_hex" }

  /** Only upgrade_available changes the flag, and only the boot variables change what is booted. */
  predicate VarStep(before: Files, after: Files, name: string) {
    && (name != "upgrade_available" ==> after.upgradeAvailable == before.upgradeAvailable)
    && (!IsBootVar(name) ==> SameBoot(after, before))
    && (name != "bootcount" ==> after.bootcount == before.bootcount)
    && (before.fat.Some? <==> after.fat.Some?)
  }

  predicate SameBoot(f: Files, g: Files) { f.bootPart == g.bootPart && f.fat == g.fat }

  /** The partition number that writing this variable stores, if it stores one. */
  function BootNumber(name: string, value: string): Option<string> {
    if name == "mender_boot_part" then Some(value)
    else if name == "mender_boot_part_hex" then HexToDecimal(value)
    else None
  }

  function SlotOf(partA: string, partB: string, partNum: string): string {
    if partNum == ExtractNumber(partA) then "a" else if partNum == ExtractNumber(partB) then "b" else ""
  }

  function PartitionOfSlot(partA: string, partB: string, slot: string): Option<string> {
    if slot == "a" then Some(ExtractNumber(partA)) else if slot == "b" then Some(ExtractNumber(partB)) else None
  }

  /** Slots and partition numbers stand for each other, if the two partitions have different numbers; a is the first. */
  lemma SlotsAndNumbersAgree(partA: string, partB: string, s: string)
    requires ExtractNumber(partA) != ExtractNumber(partB)
    ensures SlotOf(partA, partB, s) != "" ==> PartitionOfSlot(partA, partB, SlotOf(partA, partB, s)) == Some(s)
    ensures PartitionOfSlot(partA, partB, s).Some? ==> SlotOf(partA, partB, PartitionOfSlot(partA, partB, s).value) == s
    ensures SlotOf(partA, partB, s) == "a" <==> s == ExtractNumber(partA)
    ensures SlotOf(partA, partB, s) == "b" <==> s == ExtractNumber(partB)
    ensures SlotOf(partA, partB, s) in {"a", "b", ""}
  {
  }

  type BootVars = map<string, string>

  /** The target is the number that the last of the boot variables stores. */
  predicate Selects(vars: BootVars, target: string) {
    if "mender_boot_part_hex" in vars then
      HexToDecimal(vars["mender_boot_part_hex"]).None? || HexToDecimal(vars["mender_boot_part_hex"]).value == target
    else "mender_boot_part" in vars && vars["mender_boot_part"] == target
  }

  predicate Holds(f: Files, vars: BootVars) {
    && ("bootcount" in vars ==> f.bootcount == vars["bootcount"])
    && ("upgrade_available" in vars ==> f.upgradeAvailable == vars["upgrade_available"])
  }

  predicate HexIsFine(vars: BootVars) {
    "mender_boot_part_hex" in vars ==> HexToDecimal(vars["mender_boot_part_hex"]).Some?
  }

  const WRITE_ORDER := ["mender_boot_part", "mender_boot_part_hex", "bootcount", "upgrade_available"]

  /** The boot variables come first, the number before its hexadecimal form, and the flag last. */
  lemma Ordered(i: nat)
    requires i < |WRITE_ORDER|
    ensures WRITE_ORDER[i] == "mender_boot_part" <==> i == 0
    ensures WRITE_ORDER[i] == "mender_boot_part_hex" <==> i == 1
    ensures WRITE_ORDER[i] == "bootcount" <==> i == 2
    ensures WRITE_ORDER[i] == "upgrade_available" <==> i == 3
  {
    assert |"mender_boot_part"| == 16 && |"mender_boot_part_hex"| == 20;
    assert |"bootcount"| == 9 && |"upgrade_available"| == 17;
  }

  /** While the flag is not set, a write in this order leaves the files safe at every point. */
  lemma StepIsSafe(before: Files, after: Files, i: nat, target: string)
    requires i < |WRITE_ORDER| && VarStep(before, after, WRITE_ORDER[i])
    requires before.upgradeAvailable != "1" && (i > 1 ==> Names(before, target))
    ensures Safe(after, target) && (i < 3 ==> after.upgradeAvailable != "1") && (i > 1 ==> Names(after, target))
    ensures i != 2 ==> after.bootcount == before.bootcount
  {
    Ordered(i);
  }

  lemma NamingIsSafe(f: Files, target: string)
    requires Names(f, target)
    ensures Safe(f, target)
  {
  }

  lemma Unordered(name: string)
    requires name !in WRITE_ORDER
    ensures !IsBootVar(name) && name != "bootcount" && name != "upgrade_available"
  {
    assert WRITE_ORDER[0] in WRITE_ORDER && WRITE_ORDER[1] in WRITE_ORDER;
    assert WRITE_ORDER[2] in WRITE_ORDER && WRITE_ORDER[3] in WRITE_ORDER;
  }

  lemma HexIsNumber(partition: string)
    requires PartitionNumber(partition).Some?
    ensures HexToDecimal(PartitionNumber(partition).value.hex).Some?
  {
    ParseIntPrinted(ParseInt(TrailingDigits(partition), 10).value, 16, true);
  }

  datatype Attempt = Written | ReadOnly | OtherFailure

  const MAX_RETRIES := 15

  /** No flag is touched, and the number is in place before anything that is derived from it. */
  predicate NumberFirst(before: Files, after: Files, partNum: string) {
    && SameFlags(after, before)
    && (after.bootPart == partNum || (after.slot == before.slot && after.fat == before.fat))
  }

  lemma NumberStep(before: Files, after: Files, partNum: string)
    requires Torn(before, after, BootPartFile, partNum)
    ensures NumberFirst(before, after, partNum) && after.fat == before.fat && after.slot == before.slot
  {
  }

  lemma SlotStep(before: Files, after: Files, slot: string)
    requires Torn(before, after, SlotFile, slot)
    ensures SameFlags(after, before) && after.bootPart == before.bootPart && after.fat == before.fat
  {
  }

  /** What writeFile tries: again as long as the filesystem is read-only, up to fifteen times. */
  predicate Tried(attempts: seq<Attempt>, ok: bool) {
    var n := |attempts|;
    && 0 < n <= 15 && (forall i :: 0 <= i < n - 1 ==> attempts[i].ReadOnly?)
    && (if ok then attempts[n - 1].Written?
        else attempts[n - 1].OtherFailure? || (n == 15 && attempts[n - 1].ReadOnly?))
  }

  /** The writes of some files, and the mount that the FAT file needs, may never fail. */
  class FileBasedBootEnv {
    const sound: set<FileId>
    const partA: string
    const partB: string
    var files: Files
    ghost var trace: seq<Files>
    ghost var attempts: seq<Attempt>    // those of the last writeFile

    constructor (partA: string, partB: string, files: Files, sound: set<FileId>)
      ensures this.sound == sound && this.partA == partA && this.partB == partB
      ensures this.files == files && trace == [files]
    {
      this.partA, this.partB, this.files, this.sound, trace := partA, partB, files, sound, [files];
    }

    /** No write of this variable fails. */
    predicate Writable(name: string)
      reads this
    {
      && (IsBootVar(name) ==> BootPartFile in sound && FatFile in sound)
      && (name == "upgrade_available" ==> UpgradeAvailableFile in sound)
      && (name == "bootcount" ==> BootcountFile in sound)
    }

    /** writeFile, with its retries on a read-only filesystem. */
    method WriteFile(id: FileId, content: string) returns (ok: bool)
      modifies this
      ensures old(trace) <= trace && Torn(old(files), files, id, content)
      ensures forall i :: old(|trace|) <= i < |trace| ==> Torn(old(files), trace[i], id, content)
      ensures ok ==> files == With(old(files), id, content)
      ensures Tried(attempts, ok) && (id in sound ==> ok)
    {
      attempts := [];
      var i := 0;
      while i < MAX_RETRIES
        invariant files == old(files) && trace == old(trace) && (id in sound ==> i == 0)
        invariant 0 <= i <= MAX_RETRIES && |attempts| == i && forall j :: 0 <= j < i ==> attempts[j].ReadOnly?
      {
        var attempt: Attempt := *;
        if id in sound { attempt := Written; }
        attempts := attempts + [attempt];
        if attempt.Written? {
          files := With(files, id, content);
          assert content[..|content|] == content;
          trace := trace + [files];
          return true;
        }
        if attempt.OtherFailure? {
          var truncated: bool, k: nat := *, *;
          if truncated && k <= |content| { files := With(files, id, content[..k]); }
          trace := trace + [files];
          return false;
        }
        i := i + 1;
      }
      ok := false;
    }

    /** syncBootSlotToBootPartition: a board without a candidate for the FAT partition has nothing to do. */
    method SyncBootSlot(partNum: string) returns (ok: bool)
      modifies this
      ensures old(trace) <= trace && SameButFat(files, old(files))
      ensures forall i :: old(|trace|) <= i < |trace| ==> SameButFat(trace[i], old(files))
      ensures FatFile in sound ==> ok
      ensures ok ==> files == if old(files.fat.Some?) then old(files).(fat := Some(partNum)) else old(files)
    {
      if files.fat.None? { return true; }
      var mounted: bool := *;
      if !mounted && FatFile !in sound { return false; }
      var written: bool, k: nat := *, *;
      written := written || FatFile in sound;
      if written {
        files := files.(fat := Some(partNum));
      } else if k <= |partNum| {
        files := files.(fat := Some(partNum[..k]));
      }
      trace := trace + [files];
      ok := written;
    }

    /** A failed write of the slot file is only logged. */
    method WriteMenderBootPart(partNum: string) returns (ok: bool)
      modifies this
      ensures old(trace) <= trace && SameFlags(files, old(files))
      ensures forall i :: old(|trace|) <= i < |trace| ==> NumberFirst(old(files), trace[i], partNum)
      ensures ok ==> Names(files, partNum)
      ensures BootPartFile in sound && FatFile in sound ==> ok
      ensures BootPartFile in sound && SlotFile in sound ==>
                var slot := SlotOf(partA, partB, partNum);
                files.slot == if slot != "" then slot else old(files.slot)
    {
      ghost var (before, a) := (files, |trace|);
      ok := WriteFile(BootPartFile, partNum);
      NumberStep(before, files, partNum);
      forall i | a <= i < |trace| ensures NumberFirst(before, trace[i], partNum) {
        NumberStep(before, trace[i], partNum);
      }
      if !ok { return; }
      ghost var (named, b) := (files, |trace|);
      var slot := SlotOf(partA, partB, partNum);
      if slot != "" {
        var _ := WriteFile(SlotFile, slot);
        SlotStep(named, files, slot);
        forall i | b <= i < |trace| ensures NumberFirst(before, trace[i], partNum) {
          SlotStep(named, trace[i], slot);
        }
      }
      ok := SyncBootSlot(partNum);
    }

    method WriteVar(name: string, value: string) returns (ok: bool)
      modifies this
      ensures old(trace) <= trace
      ensures VarStep(old(files), files, name)
      ensures forall i :: old(|trace|) <= i < |trace| ==> VarStep(old(files), trace[i], name)
      ensures ok && IsBootVar(name) ==> BootNumber(name, value).Some? && Names(files, BootNumber(name, value).value)
      ensures ok && name == "upgrade_available" ==> files.upgradeAvailable == value
      ensures ok && name == "bootcount" ==> files.bootcount == value
      ensures Writable(name) && (name == "mender_boot_part_hex" ==> HexToDecimal(value).Some?) ==> ok
    {
      match name
      case "mender_boot_part" => ok := WriteMenderBootPart(value);
      case "mender_boot_part_hex" =>
        var dec := HexToDecimal(value);
        if dec.None? { return false; }
        ok := WriteMenderBootPart(dec.value);
      case "upgrade_available" => ok := WriteFile(UpgradeAvailableFile, value);
      case "bootcount" => ok := WriteFile(BootcountFile, value);
      case _ => ok := true;
    }

    /**
     Writes the variables that select a slot. Whatever fails, and wherever the power is
     lost, upgrade_available cannot be read as 1 before the target is in place.
     */
    method WriteEnv(vars: BootVars, ghost target: string) returns (ok: bool)
      requires files.upgradeAvailable != "1" && Selects(vars, target)
      modifies this
      ensures old(trace) <= trace && Safe(files, target)
      ensures forall i :: old(|trace|) <= i < |trace| ==> Safe(trace[i], target)
      ensures ok ==> Names(files, target) && Holds(files, vars)
      ensures HexIsFine(vars) && (forall name :: name in vars ==> Writable(name)) ==> ok
    {
      hide VarStep, Safe, HexToDecimal;
      var written: set<string> := {};
      var i := 0;
      while i < |WRITE_ORDER|
        invariant 0 <= i <= |WRITE_ORDER| && old(trace) <= trace
        invariant forall j :: old(|trace|) <= j < |trace| ==> Safe(trace[j], target)
        invariant i > 1 || (i == 1 && "mender_boot_part_hex" !in vars) ==> Names(files, target)
        invariant i < |WRITE_ORDER| ==> files.upgradeAvailable != "1"
        invariant "bootcount" in written ==> "bootcount" in vars && files.bootcount == vars["bootcount"]
        invariant "upgrade_available" in written ==>
                    "upgrade_available" in vars && files.upgradeAvailable == vars["upgrade_available"]
        invariant written <= vars.Keys
        invariant forall j :: 0 <= j < i && WRITE_ORDER[j] in vars ==> WRITE_ORDER[j] in written
      {
        var name := WRITE_ORDER[i];
        Ordered(i);
        if name in vars {
          ghost var (before, seen) := (files, |trace|);
          ok := WriteVar(name, vars[name]);
          StepIsSafe(before, files, i, target);
          forall j | seen <= j < |trace| ensures Safe(trace[j], target) { StepIsSafe(before, trace[j], i, target); }
          if !ok { return; }
          written := written + {name};
        }
        i := i + 1;
      }
      Ordered(2);
      Ordered(3);
      ok := WriteRest(vars, written, target);
      NamingIsSafe(files, target);
    }

    /** The keys that the order does not mention, in any order. */
    method WriteRest(vars: BootVars, written: set<string>, ghost target: string) returns (ok: bool)
      requires Names(files, target) && Holds(files, vars)
      requires forall k :: k in WRITE_ORDER && k in vars ==> k in written
      modifies this
      ensures ok
      ensures old(trace) <= trace && Names(files, target) && Holds(files, vars)
      ensures forall i :: old(|trace|) <= i < |trace| ==> Safe(trace[i], target)
    {
      var rest := vars.Keys;
      while rest != {}
        invariant rest <= vars.Keys && old(trace) <= trace
        invariant forall j :: old(|trace|) <= j < |trace| ==> Safe(trace[j], target)
        invariant Names(files, target) && Holds(files, vars)
        decreases |rest|
      {
        var name :| name in rest;
        rest := rest - {name};
        if name !in written {
          Unordered(name);
          ok := WriteVar(name, vars[name]);
          if !ok { return; }
        }
      }
      ok := true;
    }

    /**
     InstallUpdate's writes. The flag is never set before the number of the inactive
     partition is in place; and that number is the text that the rest of the agent
     compares with, exactly if the configured partition number is canonical.
     */
    method InstallUpdate(inactive: string) returns (ok: bool)
      requires files.upgradeAvailable != "1"
      modifies this
      ensures Writable("mender_boot_part") && Writable("upgrade_available") && Writable("bootcount") ==>
                ok == PartitionNumber(inactive).Some?
      ensures PartitionNumber(inactive).None? ==> !ok && files == old(files) && trace == old(trace)
      ensures PartitionNumber(inactive).Some? ==>
                var n := PartitionNumber(inactive).value;
                && HexToDecimal(n.hex).Some? && old(trace) <= trace && Safe(files, HexToDecimal(n.hex).value)
                && (forall i :: old(|trace|) <= i < |trace| ==> Safe(trace[i], HexToDecimal(n.hex).value))
                && (ok ==> Names(files, HexToDecimal(n.hex).value))
                && (ok ==> files.upgradeAvailable == "1" && files.bootcount == "0")
                && (ok ==> (Names(files, n.dec) <==> Canonical(n.dec)))
    {
      hide HexToDecimal, PartitionNumber, Canonical, Safe;
      var number := PartitionNumber(inactive);
      if number.None? { return false; }
      HexIsNumber(inactive);
      FormsAgreeExactly(inactive);
      var vars := map[
        "upgrade_available" := "1",
        "mender_boot_part" := number.value.dec,
        "mender_boot_part_hex" := number.value.hex,
        "bootcount" := "0"];
      ok := WriteEnv(vars, HexToDecimal(number.value.hex).value);
    }

    /**
     ReconcileToBootedSlot: aligns the two bookkeeping files with the mounted root
     (None if it cannot be detected), and touches nothing while an update is pending.
     */
    method ReconcileToBootedSlot(detected: Option<string>)
      modifies this
      ensures old(trace) <= trace && files.fat == old(files.fat)
      ensures files.upgradeAvailable == old(files.upgradeAvailable) && files.bootcount == old(files.bootcount)
      // at every point, and the slot only once the number is in place
      ensures forall i :: old(|trace|) <= i < |trace| ==>
                detected.Some? && NumberFirst(old(files), trace[i], detected.value) && trace[i].fat == old(files.fat)
      ensures old(files.upgradeAvailable) == "1" ==> files == old(files) && trace == old(trace)
      ensures detected.None? || SlotOf(partA, partB, detected.value) == "" ==> files == old(files)
      ensures BootPartFile in sound && old(files.upgradeAvailable) != "1" && detected.Some? ==>
                var slot := SlotOf(partA, partB, detected.value);
                slot != "" ==> files.bootPart == detected.value && (SlotFile in sound ==> files.slot == slot)
    {
      if files.upgradeAvailable == "1" || detected.None? { return; }
      var slot := SlotOf(partA, partB, detected.value);
      if slot == "" || (files.bootPart == detected.value && files.slot == slot) { return; }
      ghost var (before, a) := (files, |trace|);
      var ok := WriteFile(BootPartFile, detected.value);
      NumberStep(before, files, detected.value);
      forall i | a <= i < |trace|
        ensures NumberFirst(before, trace[i], detected.value) && trace[i].fat == before.fat
      {
        NumberStep(before, trace[i], detected.value);
      }
      if !ok { return; }
      ghost var (named, b) := (files, |trace|);
      ok := WriteFile(SlotFile, slot);
      SlotStep(named, files, slot);
      forall i | b <= i < |trace| ensures NumberFirst(before, trace[i], detected.value) && trace[i].fat == before.fat {
        SlotStep(named, trace[i], slot);
      }
    }
  }
}
