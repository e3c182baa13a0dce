/**
 The A/B slot switch (installer/dual_rootfs_device.go, installer/partitions.go) over a
 boot environment whose writes are atomic: which slot InstallUpdate, Rollback and
 CommitUpdate make the next boot use, in any order and across reboots.
 */
module DualRootfs {
  import opened Wrappers
  import opened Digits
  import opened Partitions

  datatype Env = Env(
    bootPart: Option<string>, bootPartHex: Option<string>,
    upgradeAvailable: Option<string>, bootcount: Option<string>)

  /** The two configured partitions, the boot environment, and the mounted root. */
  datatype Device = Device(partA: string, partB: string, env: Env, running: string)

  predicate HasUpdate(d: Device) { d.env.upgradeAvailable == Some("1") }

  /** getAndCacheInactivePartition: None is one of its errors. */
  function Inactive(d: Device): Option<string> {
    if d.partA == "" || d.partB == "" || d.partA == d.partB then None
    else if d.running == d.partA then Some(d.partB)
    else if d.running == d.partB then Some(d.partA)
    else None
  }

  function NumberOf(partition: Option<string>): Option<Number> {
    if partition.Some? then PartitionNumber(partition.value) else None
  }

  // ------------------------------------------------------------- operations

  /** switch-boot-slot.sh, where the board has it. */
  datatype Script = Absent | Switches | Fails

  datatype Op =
    | Install(written: bool, script: Script, cleared: bool)
    | Rollback(written: bool)
    | Commit(written: bool)
    | Fallback(written: bool)
    | Reboot

  /** Each operation's new environment, and whether it reports success. */
  function InstallUpdate(d: Device, written: bool, script: Script, cleared: bool): (Device, bool) {
    var target := NumberOf(Inactive(d));
    if target.None? || !written then (d, false)
    else
      var d1 := d.(env := Env(Some(target.value.dec), Some(target.value.hex), Some("1"), Some("0")));
      if !script.Fails? then (d1, true)
      else (if cleared then d1.(env := d1.env.(upgradeAvailable := Some("0"))) else d1, false)
  }

  function RollbackUpdate(d: Device, written: bool): (Device, bool) {
    if !HasUpdate(d) then (d, true)
    else if d.env.bootPart.None? || PartitionNumber(d.running).None? then (d, false)
    else
      var next := if d.env.bootPart.value != PartitionNumber(d.running).value.dec then PartitionNumber(d.running)
                  else NumberOf(Inactive(d));
      if next.None? || !written then (d, false)
      else (d.(env := d.env.(bootPart := Some(next.value.dec), bootPartHex := Some(next.value.hex),
                             upgradeAvailable := Some("0"))), true)
  }

  function CommitUpdate(d: Device, written: bool): (Device, bool) {
    if HasUpdate(d) && written then (d.(env := d.env.(upgradeAvailable := Some("0"))), true) else (d, false)
  }

  const MAX_BOOT_RETRIES := 3

  function BootCount(env: Env): int {
    if env.bootcount.None? then 0
    else
      var n := ParseInt(env.bootcount.value, 10);
      if n.Some? then n.value else 0
  }

  function HandleBootCountFallback(d: Device, written: bool): Device {
    if HasUpdate(d) && BootCount(d.env) >= MAX_BOOT_RETRIES && written then
      d.(env := d.env.(upgradeAvailable := Some("0"), bootcount := Some("0")))
    else d
  }

  predicate IsNumberOf(partition: string, dec: Option<string>) {
    PartitionNumber(partition).Some? && dec == Some(PartitionNumber(partition).value.dec)
  }

  /**
   The slot that a bootloader which follows mender_boot_part starts. On a board whose
   switch-boot-slot.sh sets the slot by other means, what this says of the next boot
   holds of the boot environment only.
   */
  function NextBoot(d: Device): string {
    if IsNumberOf(d.partA, d.env.bootPart) then d.partA
    else if IsNumberOf(d.partB, d.env.bootPart) then d.partB
    else d.running
  }

  /** The device and the slot that was running at the last InstallUpdate. */
  datatype World = World(device: Device, origin: string)

  function Step(w: World, op: Op): World {
    var d := w.device;
    match op
    case Install(written, script, cleared) =>
      var d' := InstallUpdate(d, written, script, cleared).0;
      World(d', if written && NumberOf(Inactive(d)).Some? then d.running else w.origin)
    case Rollback(written) => w.(device := RollbackUpdate(d, written).0)
    case Commit(written) => w.(device := CommitUpdate(d, written).0)
    case Fallback(written) => w.(device := HandleBootCountFallback(d, written))
    case Reboot => w.(device := d.(running := NextBoot(d)))
  }

  function Run(w: World, ops: seq<Op>): World
    decreases |ops|
  {
    if ops == [] then w else Run(Step(w, ops[0]), ops[1..])
  }

  // -------------------------------------------------------------- invariant

  /** A configured pair that the bootloader can tell apart, with the root mounted from one of them. */
  predicate Pair(d: Device) {
    && d.partA != "" && d.partB != ""
    && PartitionNumber(d.partA).Some? && PartitionNumber(d.partB).Some?
    && PartitionNumber(d.partA).value.dec != PartitionNumber(d.partB).value.dec
    && (d.running == d.partA || d.running == d.partB)
  }

  function Other(d: Device, partition: string): string { if partition == d.partA then d.partB else d.partA }

  predicate Inv(w: World) {
    && Pair(w.device)
    && (HasUpdate(w.device) ==>
          && (w.origin == w.device.partA || w.origin == w.device.partB)
          && IsNumberOf(Other(w.device, w.origin), w.device.env.bootPart))
  }

  lemma StepKeepsInv(w: World, op: Op)
    requires Inv(w)
    ensures Inv(Step(w, op)) && Step(w, op).device.partA == w.device.partA && Step(w, op).device.partB == w.device.partB
  {
    hide PartitionNumber, BootCount;
  }

  lemma {:induction false} RunKeepsInv(w: World, ops: seq<Op>)
    requires Inv(w)
    ensures Inv(Run(w, ops))
    decreases |ops|
  {
    hide Inv, Step;
    if ops != [] {
      StepKeepsInv(w, ops[0]);
      RunKeepsInv(Step(w, ops[0]), ops[1..]);
    }
  }

  /**
   In every run, failed writes and failed scripts included: while an update is pending,
   a rollback that is written makes the next boot use the slot that was running at
   InstallUpdate, before or after the reboot into the new one, and ends the update.
   */
  lemma {:induction false} RollbackSelectsOrigin(w: World, ops: seq<Op>)
    requires Pair(w.device) && !HasUpdate(w.device)
    ensures var w' := Run(w, ops);
            HasUpdate(w'.device) ==>
              var (d, ok) := RollbackUpdate(w'.device, true);
              && ok && !HasUpdate(d) && NextBoot(d) == w'.origin && d.running == w'.device.running
              && IsNumberOf(w'.origin, d.env.bootPart)
  {
    hide PartitionNumber, Run, Step;
    RunKeepsInv(w, ops);
  }

  /** Once an update has been committed or rolled back, another rollback changes nothing. */
  lemma {:induction false} RollbackIsSpent(w: World, op: Op, ops: seq<Op>, written: bool)
    requires (op.Commit? || op.Rollback?) && op.written && HasUpdate(w.device) && Inv(w)
    requires forall o :: o in ops ==> !o.Install?
    ensures var d := Run(Step(w, op), ops).device; RollbackUpdate(d, written) == (d, true)
    decreases |ops|
  {
    hide PartitionNumber, BootCount;
    NoUpdateWithoutInstall(Step(w, op), ops);
  }

  lemma {:induction false} NoUpdateWithoutInstall(w: World, ops: seq<Op>)
    requires !HasUpdate(w.device) && forall o :: o in ops ==> !o.Install?
    ensures !HasUpdate(Run(w, ops).device)
    decreases |ops|
  {
    hide PartitionNumber, BootCount;
    if ops != [] { NoUpdateWithoutInstall(Step(w, ops[0]), ops[1..]); }
  }

  /**
   A failed InstallUpdate followed by a rollback leaves the environment as it was, or
   naming the running slot, except in one case: the script failed and upgrade_available
   could be cleared. Then the rollback finds no update, and mender_boot_part still names
   the new slot, which a bootloader that follows it boots next.
   */
  lemma FailedInstallExactly(d: Device, written: bool, script: Script, cleared: bool)
    requires Pair(d) && !HasUpdate(d) && NextBoot(d) == d.running
    ensures var (d1, ok) := InstallUpdate(d, written, script, cleared);
            var (d2, rolledBack) := RollbackUpdate(d1, true);
            && rolledBack && (ok <==> written && !script.Fails?)
            && (d2.env == d.env || IsNumberOf(d.running, d2.env.bootPart) <==> !(written && script.Fails? && cleared))
            && (written && script.Fails? && cleared ==>
                  !HasUpdate(d2) && IsNumberOf(Other(d, d.running), d2.env.bootPart))
            && (NextBoot(d2) == d.running <==> !(written && script.Fails? && cleared))
            && (NextBoot(d2) != d.running ==> NextBoot(d2) == Other(d, d.running))
  {
    hide PartitionNumber;
  }

  // ---------------------------------------------------------- counted boots

  /**
   One boot as the bootloader does it: it starts the slot that the environment names,
   and counts the boot as long as an update is pending. Then the agent starts.
   */
  function CountedBoot(d: Device, written: bool): Device {
    var d1 := d.(running := NextBoot(d));
    HandleBootCountFallback(
      if HasUpdate(d) then d1.(env := d1.env.(bootcount := Some(Print(Seen(d.env) + 1, 10, false)))) else d1, written)
  }

  /** What the bootloader takes bootcount for. */
  function Seen(env: Env): nat {
    if env.bootcount.Some? && ParseNat(env.bootcount.value, 10).Some?
    then ParseNat(env.bootcount.value, 10).value else 0
  }

  function CountedBoots(d: Device, n: nat, written: bool): Device {
    if n == 0 then d else CountedBoot(CountedBoots(d, n - 1, written), written)
  }

  lemma CountReadsBack(n: nat)
    ensures ParseNat(Print(n, 10, false), 10) == Some(n)
    ensures n <= MAX_INT64 ==> ParseInt(Print(n, 10, false), 10) == Some(n)
  {
    ParsePrinted(n, 10, false);
    if n <= MAX_INT64 { ParseIntPrinted(n, 10, false); }
  }

  lemma {:induction false} FewBootsCount(d: Device, n: nat, written: bool)
    requires Pair(d) && (n < 3 || !written)
    requires HasUpdate(d) && d.env.bootcount == Some("0") && IsNumberOf(Other(d, d.running), d.env.bootPart)
    ensures var d' := CountedBoots(d, n, written);
            && d' == d.(running := d'.running, env := d.env.(bootcount := d'.env.bootcount))
            && d'.running == (if n == 0 then d.running else Other(d, d.running))
            && Seen(d'.env) == n
  {
    hide PartitionNumber, Print, ParseNat, ParseInt;
    ZeroReadsBack();
    if n > 0 {
      FewBootsCount(d, n - 1, written);
      CountReadsBack(n);
    }
  }

  lemma ZeroReadsBack()
    ensures ParseNat("0", 10) == Some(0)
  {
    CountReadsBack(0);
    assert Print(0, 10, false) == "0";
  }

  lemma {:induction false} ClearedBoots(d: Device, n: nat)
    requires Pair(d) && n >= 3
    requires HasUpdate(d) && d.env.bootcount == Some("0") && IsNumberOf(Other(d, d.running), d.env.bootPart)
    ensures var d' := CountedBoots(d, n, true);
            && d'.env == d.env.(upgradeAvailable := Some("0"), bootcount := Some("0"))
            && d' == d.(running := Other(d, d.running), env := d'.env)
  {
    hide PartitionNumber, Print, ParseNat, ParseInt, Seen;
    if n == 3 {
      FewBootsCount(d, 2, true);
      CountReadsBack(3);
    } else {
      ClearedBoots(d, n - 1);
    }
  }

  /**
   After an InstallUpdate, as long as the new slot has been booted fewer than three
   times, the update can still be committed, and a rollback still selects the old slot.
   From the third boot on both are over: there is nothing left to commit or to roll back,
   unless the flags could not be written.
   */
  lemma CountedBootsExactly(d: Device, script: Script, n: nat, written: bool)
    requires Pair(d) && !script.Fails?
    ensures var (d1, installed) := InstallUpdate(d, true, script, false);
            var d2 := CountedBoots(d1, n, written);
            var (d3, rolledBack) := RollbackUpdate(d2, true);
            && installed && d2.running == (if n == 0 then d.running else Other(d, d.running))
            && (n < 3 || !written ==>
                  && CommitUpdate(d2, true).1 && rolledBack && IsNumberOf(d.running, d3.env.bootPart)
                  && NextBoot(d3) == d.running)
            && (n >= 3 && written ==>
                  && d2.env.upgradeAvailable == Some("0") && d2.env.bootcount == Some("0")
                  && !CommitUpdate(d2, true).1 && d3 == d2)
  {
    hide PartitionNumber, Print, ParseNat, ParseInt, Seen;
    var d1 := InstallUpdate(d, true, script, false).0;
    if n < 3 || !written { FewBootsCount(d1, n, written); } else { ClearedBoots(d1, n); }
  }

  /** Such a pair of partitions, after a reboot into the second one with the number stored in files. */
  function PaddedDevice(): Device {
    Device("/dev/mmcblk0p02", "/dev/mmcblk0p03", Env(Some("3"), Some("3"), Some("1"), Some("0")), "/dev/mmcblk0p03")
  }

  /**
   With a leading zero the stored number is not the text that Rollback compares with: it
   takes the new slot for the old one, selects the slot that is running, and ends the update.
   */
  lemma PaddedRollbackStays()
    ensures var d := PaddedDevice();
            && PartitionNumber(d.partB).Some? && HexToDecimal(PartitionNumber(d.partB).value.hex) == d.env.bootPart
            && var (d', ok) := RollbackUpdate(d, true);
               ok && !HasUpdate(d') && IsNumberOf(d.partB, d'.env.bootPart)
  {
    hide PartitionNumber, HexToDecimal;
    PaddedNumber();
  }

  // -------------------------------------------------------------- the device

  /** The installer as one process holds it, with the partitions it has looked up. */
  class DualRootfsDevice {
    const partA: string
    const partB: string
    const running: string
    var env: Env
    var active: Option<string>
    var inactive: Option<string>

    function State(): Device
      reads this
    {
      Device(partA, partB, env, running)
    }

    ghost predicate Valid()
      reads this
    {
      (active.Some? ==> active.value == running) && (inactive.Some? ==> inactive == Inactive(State()))
    }

    constructor (d: Device)
      ensures Valid() && State() == d
    {
      partA, partB, running, env := d.partA, d.partB, d.running, d.env;
      active, inactive := None, None;
    }

    method GetActive() returns (partition: string)
      requires Valid()
      modifies this`active
      ensures Valid() && partition == running
    {
      if active.None? { active := Some(running); }
      partition := active.value;
    }

    method GetInactive() returns (partition: Option<string>)
      requires Valid()
      modifies this`active, this`inactive
      ensures Valid() && partition == Inactive(State())
      // the other one of two different partitions, one of which is the root
      ensures partition.Some? ==> partition.value != running && {partition.value, running} == {partA, partB}
      ensures partition.None? ==> partA == partB || partA == "" || partB == "" || running !in {partA, partB}
    {
      if inactive.Some? { return inactive; }
      if partA == "" || partB == "" || partA == partB { return None; }
      var running := GetActive();
      if running == partA {
        inactive := Some(partB);
      } else if running == partB {
        inactive := Some(partA);
      }
      partition := inactive;
    }

    method Install(written: bool, script: Script, cleared: bool) returns (ok: bool)
      requires Valid()
      modifies this
      ensures Valid() && (State(), ok) == InstallUpdate(old(State()), written, script, cleared)
      // the new slot's number in both forms, an update pending and not booted yet, whatever was there before
      ensures var target := NumberOf(Inactive(State()));
              if target.None? || !written then env == old(env) && !ok
              else
                && env.bootPart == Some(target.value.dec) && env.bootPartHex == Some(target.value.hex)
                && env.bootcount == Some("0") && (ok <==> !script.Fails?)
                && env.upgradeAvailable == Some(if script.Fails? && cleared then "0" else "1")
    {
      hide PartitionNumber;
      var partition := GetInactive();
      if partition.None? { return false; }
      var target := PartitionNumber(partition.value);
      if target.None? || !written { return false; }
      env := Env(Some(target.value.dec), Some(target.value.hex), Some("1"), Some("0"));
      if script.Fails? {
        if cleared { env := env.(upgradeAvailable := Some("0")); }
        return false;
      }
      ok := true;
    }

    method Rollback(written: bool) returns (ok: bool)
      requires Valid()
      modifies this
      ensures Valid() && (State(), ok) == RollbackUpdate(old(State()), written)
      // with an update pending, the slot that mender_boot_part does not name: the running one, or else the other
      ensures old(env).upgradeAvailable != Some("1") ==> ok && env == old(env)
      ensures !ok ==> env == old(env)
      ensures ok && old(env).upgradeAvailable == Some("1") ==>
                && old(env).bootPart.Some? && PartitionNumber(running).Some?
                && var here := PartitionNumber(running).value;
                   && env == old(env).(bootPart := env.bootPart, bootPartHex := env.bootPartHex,
                                       upgradeAvailable := Some("0"))
                   && (if old(env).bootPart == Some(here.dec)
                       then NumberOf(Inactive(State())).Some?
                            && env.bootPart == Some(NumberOf(Inactive(State())).value.dec)
                            && env.bootPartHex == Some(NumberOf(Inactive(State())).value.hex)
                       else env.bootPart == Some(here.dec) && env.bootPartHex == Some(here.hex))
      ensures !ok <==>
                && old(env).upgradeAvailable == Some("1")
                && (|| old(env).bootPart.None? || PartitionNumber(running).None? || !written
                    || (old(env).bootPart == Some(PartitionNumber(running).value.dec)
                        && NumberOf(Inactive(State())).None?))
    {
      hide PartitionNumber;
      if env.upgradeAvailable != Some("1") { return true; }
      if env.bootPart.None? { return false; }
      var partition := GetActive();
      var next := PartitionNumber(partition);
      if next.None? { return false; }
      if env.bootPart.value == next.value.dec {
        var other := GetInactive();
        if other.None? { return false; }
        next := PartitionNumber(other.value);
        if next.None? { return false; }
      }
      if !written { return false; }
      env := env.(bootPart := Some(next.value.dec), bootPartHex := Some(next.value.hex), upgradeAvailable := Some("0"));
      ok := true;
    }

    method Commit(written: bool) returns (ok: bool)
      requires Valid()
      modifies this
      ensures Valid() && (State(), ok) == CommitUpdate(old(State()), written)
      ensures ok <==> old(env).upgradeAvailable == Some("1") && written
      ensures env == if ok then old(env).(upgradeAvailable := Some("0")) else old(env)
    {
      if env.upgradeAvailable != Some("1") || !written { return false; }
      env := env.(upgradeAvailable := Some("0"));
      ok := true;
    }

    method CheckBootCount(written: bool)
      requires Valid()
      modifies this
      ensures Valid() && State() == HandleBootCountFallback(old(State()), written)
      // the two flags are cleared exactly when an update is pending that has been booted three times or more
      ensures var count := if old(env).bootcount.Some? then ParseInt(old(env).bootcount.value, 10) else None;
              env == if old(env).upgradeAvailable == Some("1") && count.Some? && count.value >= 3 && written
                     then old(env).(upgradeAvailable := Some("0"), bootcount := Some("0"))
                     else old(env)
    {
      if env.upgradeAvailable != Some("1") { return; }
      var bootCount := 0;
      if env.bootcount.Some? {
        var parsed := ParseInt(env.bootcount.value, 10);
        if parsed.Some? { bootCount := parsed.value; }
      }
      if bootCount < MAX_BOOT_RETRIES { return; }
      if written { env := env.(upgradeAvailable := Some("0"), bootcount := Some("0")); }
    }
  }
}
