/** Numbers in text, as strconv and fmt read and write them. */
module Digits {
  import opened Wrappers

  const MAX_INT64: nat := 0x7FFF_FFFF_FFFF_FFFF

  type Base = b: nat | 2 <= b <= 16 witness 10

  function Digit(d: nat, upper: bool): char
    requires d < 16
  {
    if d < 10 then '0' + d as char else (if upper then 'A' else 'a') + (d - 10) as char
  }

  /** The value of a digit, in either case. */
  function Value(c: char): Option<nat> {
    if '0' <= c <= '9' then Some((c - '0') as nat)
    else if 'a' <= c <= 'f' then Some((c - 'a') as nat + 10)
    else if 'A' <= c <= 'F' then Some((c - 'A') as nat + 10)
    else None
  }

  predicate IsDigit(c: char, base: Base) { Value(c).Some? && Value(c).value < base }

  function Print(n: nat, base: Base, upper: bool): (s: string)
    ensures |s| > 0
  {
    if n < base then [Digit(n, upper)] else Print(n / base, base, upper) + [Digit(n % base, upper)]
  }

  function ParseNat(s: string, base: Base): Option<nat> {
    if s == "" || !IsDigit(s[|s| - 1], base) then None
    else
      var last := Value(s[|s| - 1]).value;
      if |s| == 1 then Some(last)
      else
        var front := ParseNat(s[..|s| - 1], base);
        if front.Some? then Some(front.value * base + last) else None
  }

  lemma DigitValue(d: nat, base: Base, upper: bool)
    requires d < base
    ensures Value(Digit(d, upper)) == Some(d) && IsDigit(Digit(d, upper), base)
    ensures Digit(d, upper) != '-' && Digit(d, upper) != '+'
  {
  }

  lemma LettersAre(d: nat, upper: bool)
    requires 10 <= d < 16
    ensures if upper then 'A' <= Digit(d, upper) <= 'F' else 'a' <= Digit(d, upper) <= 'f'
  {
  }

  /** The digits of the two bases in use. */
  lemma DigitsAre(c: char)
    ensures IsDigit(c, 10) <==> '0' <= c <= '9'
    ensures IsDigit(c, 16) <==> '0' <= c <= '9' || 'a' <= c <= 'f' || 'A' <= c <= 'F'
  {
  }

  lemma DivMod(n: nat, base: Base)
    ensures n / base * base + n % base == n && n % base < base
  {
  }

  lemma ParseAppend(front: string, c: char, base: Base)
    requires ParseNat(front, base).Some? && IsDigit(c, base)
    ensures ParseNat(front + [c], base) == Some(ParseNat(front, base).value * base + Value(c).value)
  {
    var s := front + [c];
    assert s[..|s| - 1] == front;
  }

  predicate AllDigits(s: string, base: Base) { forall i :: 0 <= i < |s| ==> IsDigit(s[i], base) }

  lemma {:induction false} ParsePrinted(n: nat, base: Base, upper: bool)
    ensures ParseNat(Print(n, base, upper), base) == Some(n) && AllDigits(Print(n, base, upper), base)
  {
    hide ParseNat, IsDigit, Digit, Value;
    if n < base {
      DigitValue(n, base, upper);
      ParseDigit(Digit(n, upper), base);
    } else {
      DigitValue(n % base, base, upper);
      ParsePrinted(n / base, base, upper);
      ParseAppend(Print(n / base, base, upper), Digit(n % base, upper), base);
      DivMod(n, base);
    }
  }

  lemma ParseDigit(c: char, base: Base)
    requires IsDigit(c, base)
    ensures ParseNat([c], base) == Value(c)
  {
  }

  /** strconv.ParseInt with 64 bits: None is a syntax or a range error. */
  function ParseInt(s: string, base: Base): Option<int> {
    if s == "" then None
    else if s[0] == '+' || s[0] == '-' then
      var n := ParseNat(s[1..], base);
      if n.None? || n.value > MAX_INT64 + (if s[0] == '-' then 1 else 0) then None
      else
        var v: int := n.value;
        Some(if s[0] == '-' then -v else v)
    else
      var n := ParseNat(s, base);
      if n.None? || n.value > MAX_INT64 then None else Some(n.value)
  }

  lemma ParseIntPrinted(n: nat, base: Base, upper: bool)
    requires n <= MAX_INT64
    ensures ParseInt(Print(n, base, upper), base) == Some(n)
  {
    ParsePrinted(n, base, upper);
    var c := Print(n, base, upper)[0];
    assert IsDigit(c, base);
    assert c != '+' && c != '-';
  }

  /** Numbers are read back with either sign, as far as they fit into 64 bits. */
  lemma ParseIntExactly(n: nat, base: Base, upper: bool)
    ensures ParseInt(Print(n, base, upper), base) == if n <= 0x7FFF_FFFF_FFFF_FFFF then Some(n) else None
    ensures ParseInt("+" + Print(n, base, upper), base) == if n <= 0x7FFF_FFFF_FFFF_FFFF then Some(n) else None
    ensures var m: int := n;
            ParseInt("-" + Print(n, base, upper), base) == if n <= 0x8000_0000_0000_0000 then Some(-m) else None
  {
    hide ParseNat, Print;
    ParsePrinted(n, base, upper);
    var s := Print(n, base, upper);
    assert IsDigit(s[0], base) && s[0] != '+' && s[0] != '-';
    assert ("+" + s)[1..] == s && ("-" + s)[1..] == s;
  }

  /** Without a minus sign the number is not negative. */
  lemma ParseIntSign(s: string, base: Base)
    requires '-' !in s && ParseInt(s, base).Some?
    ensures ParseInt(s, base).value >= 0
  {
  }

  // -------------------------------------------------------------- splitting

  /** strings.Split with a one-character separator. */
  function Split(s: string, c: char): (parts: seq<string>)
    ensures |parts| > 0
    ensures forall p :: p in parts ==> c !in p
  {
    if s == "" then [""]
    else
      var rest := Split(s[1..], c);
      if s[0] == c then [""] + rest else [[s[0]] + rest[0]] + rest[1..]
  }

  lemma {:induction false} SplitNone(s: string, c: char)
    requires c !in s
    ensures Split(s, c) == [s]
  {
    if s != "" {
      SplitNone(s[1..], c);
      assert [s[0]] + s[1..] == s;
    }
  }

  lemma {:induction false} SplitFirst(a: string, c: char, b: string)
    requires c !in a
    ensures Split(a + [c] + b, c) == [a] + Split(b, c)
  {
    var s := a + [c] + b;
    if a == "" {
      assert s[1..] == b;
    } else {
      assert s[1..] == a[1..] + [c] + b;
      SplitFirst(a[1..], c, b);
      assert [a[0]] + a[1..] == a;
    }
  }

  function Join(parts: seq<string>, c: char): string
    requires |parts| > 0
  {
    if |parts| == 1 then parts[0] else parts[0] + [c] + Join(parts[1..], c)
  }

  /** Nothing is lost in splitting. */
  lemma {:induction false} SplitJoins(s: string, c: char)
    ensures Join(Split(s, c), c) == s
  {
    if s != "" {
      var rest := Split(s[1..], c);
      SplitJoins(s[1..], c);
      if s[0] == c {
        assert ([""] + rest)[1..] == rest;
      } else {
        var parts := [[s[0]] + rest[0]] + rest[1..];
        assert parts[1..] == rest[1..];
      }
    }
  }
}
