/**
 Partition numbers as text (installer/dual_rootfs_device.go, installer/file_bootenv.go):
 the decimal and the hexadecimal form that InstallUpdate writes, and when they agree.
 */
module Partitions {
  import opened Wrappers
  import opened Digits

  /** The longest suffix of decimal digits. */
  function TrailingDigits(s: string): (d: string)
    ensures AllDigits(d, 10) && |d| <= |s| && d == s[|s| - |d|..]
    ensures |d| < |s| ==> !IsDigit(s[|s| - |d| - 1], 10)
  {
    if s != "" && IsDigit(s[|s| - 1], 10) then TrailingDigits(s[..|s| - 1]) + [s[|s| - 1]] else ""
  }

  datatype Number = Number(dec: string, hex: string)

  /** getPartitionImpl: None is an invalid partition. */
  function PartitionNumber(partition: string): Option<Number> {
    var dec := TrailingDigits(partition);
    var n := ParseInt(dec, 10);
    if n.None? || n.value < 0 then None else Some(Number(dec, Print(n.value, 16, true)))
  }

  /** extractPartitionNumber: a path that is nothing but digits has no number. */
  function ExtractNumber(device: string): (r: string)
    ensures r != "" ==> |r| < |device| && r == device[|device| - |r|..] && !IsDigit(device[|device| - |r| - 1], 10)
    ensures r == "" <==> AllDigits(device, 10) || !IsDigit(device[|device| - 1], 10)
  {
    if |TrailingDigits(device)| == |device| then "" else TrailingDigits(device)
  }

  /** What writing mender_boot_part_hex makes of its value. */
  function HexToDecimal(hex: string): Option<string> {
    var n := ParseInt(hex, 16);
    if n.None? then None
    else if n.value >= 0 then Some(Print(n.value, 10, false))
    else
      var m: int := -n.value;
      Some("-" + Print(m, 10, false))
  }

  /** No leading zero, unless it is the only digit. */
  predicate Canonical(s: string) { s != "" && (|s| == 1 || s[0] != '0') }

  lemma DigitsParse(s: string)
    requires s != "" && AllDigits(s, 10)
    ensures ParseNat(s, 10).Some?
  {
    if |s| > 1 { DigitsParse(s[..|s| - 1]); }
  }

  lemma DigitBack(c: char)
    requires IsDigit(c, 10)
    ensures Value(c).Some? && Value(c).value < 10 && Digit(Value(c).value, false) == c
    ensures c != '0' <==> Value(c).value > 0
  {
  }

  lemma PrintAppend(v: nat, d: nat)
    requires d < 10 && v > 0
    ensures Print(v * 10 + d, 10, false) == Print(v, 10, false) + [Digit(d, false)]
  {
  }

  lemma {:induction false} LeadingDigitPrints(s: string)
    requires s != "" && AllDigits(s, 10) && s[0] != '0'
    ensures ParseNat(s, 10).Some? && ParseNat(s, 10).value > 0 && Print(ParseNat(s, 10).value, 10, false) == s
  {
    hide IsDigit, Value, Digit, Print;
    DigitsParse(s);
    var c := s[|s| - 1];
    DigitBack(c);
    if |s| > 1 {
      var front := s[..|s| - 1];
      LeadingDigitPrints(front);
      PrintAppend(ParseNat(front, 10).value, Value(c).value);
    } else {
      PrintOne(c);
    }
  }

  lemma PrintOne(c: char)
    requires IsDigit(c, 10)
    ensures Print(Value(c).value, 10, false) == [c]
  {
    DigitBack(c);
  }

  lemma {:induction false} LeadingZeroDrops(s: string)
    requires |s| > 1 && AllDigits(s, 10) && s[0] == '0'
    ensures ParseNat(s, 10).Some? && ParseNat(s, 10) == ParseNat(s[1..], 10)
  {
    DigitsParse(s);
    DigitsParse(s[1..]);
    if |s| > 2 {
      LeadingZeroDrops(s[..|s| - 1]);
      assert s[..|s| - 1][1..] == s[1..][..|s[1..]| - 1];
    }
  }

  lemma PrintShort(n: nat, k: nat)
    requires k > 0 && n < Power(k)
    ensures |Print(n, 10, false)| <= k
    decreases k
  {
    if n >= 10 { PrintShort(n / 10, k - 1); }
  }

  function Power(k: nat): nat { if k == 0 then 1 else 10 * Power(k - 1) }

  lemma {:induction false} ValueBound(s: string)
    requires s != "" && AllDigits(s, 10)
    ensures ParseNat(s, 10).Some? && ParseNat(s, 10).value < Power(|s|)
  {
    DigitsParse(s);
    if |s| > 1 { ValueBound(s[..|s| - 1]); }
  }

  /** Printing a parsed number gives the same text exactly when it was canonical. */
  lemma {:induction false} PrintsBackExactly(s: string)
    requires s != "" && AllDigits(s, 10)
    ensures ParseNat(s, 10).Some? && (Print(ParseNat(s, 10).value, 10, false) == s <==> Canonical(s))
  {
    DigitsParse(s);
    if s[0] != '0' {
      LeadingDigitPrints(s);
    } else if |s| == 1 {
      PrintOne(s[0]);
    } else {
      LeadingZeroDrops(s);
      ValueBound(s[1..]);
      PrintShort(ParseNat(s, 10).value, |s| - 1);
    }
  }

  /**
   The two forms that InstallUpdate writes: reading the hexadecimal one back gives the
   same number, and the same text exactly if the number is canonical.
   */
  lemma FormsAgreeExactly(partition: string)
    requires PartitionNumber(partition).Some?
    ensures var n := PartitionNumber(partition).value;
            && ParseInt(n.hex, 16) == ParseInt(n.dec, 10)
            && (HexToDecimal(n.hex) == Some(n.dec) <==> Canonical(n.dec))
  {
    hide ParseNat, Print, Value, IsDigit;
    var n := PartitionNumber(partition).value;
    DecimalIsNat(n.dec);
    PrintsBackExactly(n.dec);
    ParseIntPrinted(ParseInt(n.dec, 10).value, 16, true);
  }

  lemma DecimalIsNat(s: string)
    requires AllDigits(s, 10) && ParseInt(s, 10).Some?
    ensures s != "" && ParseNat(s, 10).Some? && ParseInt(s, 10).value == ParseNat(s, 10).value <= MAX_INT64
  {
    assert IsDigit(s[0], 10);
  }

  lemma TrailingAppend(front: string, c: char)
    ensures TrailingDigits(front + [c]) == if IsDigit(c, 10) then TrailingDigits(front) + [c] else ""
  {
    assert (front + [c])[..|front|] == front;
  }

  lemma {:induction false} TrailingIs(front: string, digits: string)
    requires AllDigits(digits, 10) && (front != "" ==> !IsDigit(front[|front| - 1], 10))
    ensures TrailingDigits(front + digits) == digits
  {
    hide IsDigit, TrailingDigits;
    if digits == "" {
      assert front + digits == front;
      NoTrailing(front);
    } else {
      var n := |digits| - 1;
      TrailingIs(front, digits[..n]);
      TrailingAppend(front + digits[..n], digits[n]);
      assert front + digits == (front + digits[..n]) + [digits[n]];
      assert digits == digits[..n] + [digits[n]];
    }
  }

  lemma NoTrailing(front: string)
    requires front != "" ==> !IsDigit(front[|front| - 1], 10)
    ensures TrailingDigits(front) == ""
  {
  }

  /** A partition is known by the number that its name ends in, zero included, in decimal and in capital hexadecimal. */
  lemma NumberedExactly(front: string, n: nat)
    requires front != "" ==> !IsDigit(front[|front| - 1], 10)
    ensures PartitionNumber(front + Print(n, 10, false)) ==
              if n <= MAX_INT64 then Some(Number(Print(n, 10, false), Print(n, 16, true))) else None
    ensures ExtractNumber(front + Print(n, 10, false)) == if front == "" then "" else Print(n, 10, false)
  {
    hide ParseNat, Print, IsDigit, TrailingDigits;
    ParsePrinted(n, 10, false);
    ParseIntExactly(n, 10, false);
    TrailingIs(front, Print(n, 10, false));
  }

  /** A number with a leading zero, which is written back as another text. */
  lemma PaddedNumber()
    ensures PartitionNumber("/dev/mmcblk0p03") == Some(Number("03", "3"))
    ensures HexToDecimal("3") == Some("3") && !Canonical("03")
  {
    hide TrailingDigits;
    assert "/dev/mmcblk0p03" == "/dev/mmcblk0" + ['p'] + ['0'] + ['3'];
    TrailingAppend("/dev/mmcblk0", 'p');
    TrailingAppend("/dev/mmcblk0" + ['p'], '0');
    TrailingAppend("/dev/mmcblk0" + ['p'] + ['0'], '3');
    assert TrailingDigits("/dev/mmcblk0p03") == "03";
    PaddedParses();
  }

  lemma PaddedParses()
    ensures ParseInt("03", 10) == Some(3) && ParseInt("3", 16) == Some(3)
    ensures Print(3, 16, true) == "3" && Print(3, 10, false) == "3"
  {
    assert "03"[..1] == "0";
    assert ParseNat("0", 10) == Some(0) && ParseNat("03", 10) == Some(3);
  }
}
