/**
 Downloads that survive broken connections (client/update_resumer.go): a reader that
 asks the server for the rest of the artifact, checks the Content-Range it gets, and
 skips what it has already delivered.
 */
module Resumer {
  import opened Wrappers
  import opened Digits
  import Backoff

  // ---------------------------------------------------------- Content-Range

  predicate IsSpace(c: char) {
    c == ' ' || '\t' <= c <= '\r' || c == 0x85 as char || c == 0xA0 as char
  }

  function TrimSpace(s: string): string
    decreases |s|
  {
    if s != "" && IsSpace(s[0]) then TrimSpace(s[1..])
    else if s != "" && IsSpace(s[|s| - 1]) then TrimSpace(s[..|s| - 1])
    else s
  }

  /** The first position of a range, and the total size if it is there. */
  datatype Range = Range(start: int, size: Option<int>)

  function ParseRange(header: string): (r: Option<Range>)
    ensures r.Some? ==> r.value.start >= 0
  {
    if !("bytes " <= header) then None
    else
      var posAndSize := Split(TrimSpace(header[|"bytes "|..]), '/');
      if |posAndSize| > 2 then None
      else if |posAndSize| == 2 && ParseInt(posAndSize[1], 10).None? then None
      else
        var startAndEnd := Split(posAndSize[0], '-');
        if |startAndEnd| != 2 || ParseInt(startAndEnd[0], 10).None? then None
        else
          assert startAndEnd[0] in startAndEnd;
          ParseIntSign(startAndEnd[0], 10);
          Some(Range(ParseInt(startAndEnd[0], 10).value,
                     if |posAndSize| == 2 then ParseInt(posAndSize[1], 10) else None))
  }

  const PARTIAL_CONTENT := 206

  /** The checks of getStreamFromPartialContent on a response: where its body starts, if it is usable. */
  function PartialStart(status: int, header: string, offset: nat, contentLength: int): (start: Option<nat>)
    ensures start.Some? ==> start.value <= offset
  {
    var r := ParseRange(header);
    if (offset > 0 && status != PARTIAL_CONTENT) || r.None? then None
    else if r.value.size.Some? && r.value.size.value != contentLength then None
    else if r.value.start > offset then None
    else Some(r.value.start)
  }

  /** Content-Range as section 4.2 of RFC 7233 defines it; an unknown size is an asterisk. */
  function RangeHeader(first: nat, last: nat, size: Option<nat>): string {
    "bytes " + Print(first, 10, false) + "-" + Print(last, 10, false) + "/"
    + if size.Some? then Print(size.value, 10, false) else "*"
  }

  /** The same without a size, which the agent also takes. */
  function BareRange(first: nat, last: nat): string {
    "bytes " + Print(first, 10, false) + "-" + Print(last, 10, false)
  }

  predicate Plain(s: string) { forall c :: c in s ==> IsDigit(c, 10) || c == '-' || c == '/' || c == '*' }

  lemma PrintedIsPlain(n: nat)
    ensures Plain(Print(n, 10, false)) && '-' !in Print(n, 10, false) && '/' !in Print(n, 10, false)
  {
    ParsePrinted(n, 10, false);
    var s := Print(n, 10, false);
    forall c | c in s ensures IsDigit(c, 10) {
      var i :| 0 <= i < |s| && s[i] == c;
    }
  }

  lemma PlainIsTrimmed(s: string)
    requires Plain(s)
    ensures TrimSpace(s) == s
  {
    if s != "" { assert s[0] in s && s[|s| - 1] in s; }
  }

  lemma SplitAt(a: string, c: char, b: string)
    requires c !in a && c !in b
    ensures Split(a + [c] + b, c) == [a, b]
  {
    SplitFirst(a, c, b);
    SplitNone(b, c);
  }

  /**
   What the agent makes of a well-formed answer: it takes a 206, or any status at the very
   start, that states the expected size, or none, and does not start too late. A size of
   "*" is refused.
   */
  lemma RangeAcceptedExactly(status: int, first: nat, last: nat, size: Option<nat>, offset: nat, contentLength: int)
    requires first <= MAX_INT64 && (size.Some? ==> size.value <= MAX_INT64)
    ensures PartialStart(status, RangeHeader(first, last, size), offset, contentLength)
            == if (offset == 0 || status == 206) && size.Some? && size.value == contentLength && first <= offset
               then Some(first) else None
    ensures PartialStart(status, BareRange(first, last), offset, contentLength)
            == if (offset == 0 || status == 206) && first <= offset then Some(first) else None
  {
    hide Print, Split, TrimSpace, ParseInt;
    ParseRangeHeader(first, last, size);
  }

  lemma ParseRangeHeader(first: nat, last: nat, size: Option<nat>)
    requires first <= MAX_INT64 && (size.Some? ==> size.value <= MAX_INT64)
    ensures ParseRange(RangeHeader(first, last, size)) == if size.Some? then Some(Range(first, size)) else None
    ensures ParseRange(BareRange(first, last)) == Some(Range(first, None))
  {
    hide Print, Split, TrimSpace, ParseInt;
    var (a, b) := (Print(first, 10, false), Print(last, 10, false));
    var c := if size.Some? then Print(size.value, 10, false) else "*";
    PrintedIsPlain(first);
    PrintedIsPlain(last);
    if size.Some? { PrintedIsPlain(size.value); ParseIntPrinted(size.value, 10, false); } else { StarIsNoNumber(); }
    var ab := a + "-" + b;
    PlainIsTrimmed(ab + "/" + c);
    PlainIsTrimmed(ab);
    SplitAt(ab, '/', c);
    SplitNone(ab, '/');
    SplitAt(a, '-', b);
    ParseIntPrinted(first, 10, false);
    assert RangeHeader(first, last, size)[|"bytes "|..] == ab + "/" + c;
    assert BareRange(first, last)[|"bytes "|..] == ab;
  }

  // ------------------------------------------------------- which headers pass

  predicate Blank(s: string) { forall c :: c in s ==> IsSpace(c) }

  predicate Trimmed(s: string) { s != "" ==> !IsSpace(s[0]) && !IsSpace(s[|s| - 1]) }

  /** The blanks of unicode.IsSpace below 256. */
  lemma BlanksAre(c: char)
    ensures IsSpace(c) <==> c as int in {9, 10, 11, 12, 13, 32, 0x85, 0xA0}
  {
  }

  /** The text that is left between blanks, and the blanks around it. */
  lemma {:induction false} TrimSpaceCuts(s: string) returns (before: string, after: string)
    ensures s == before + TrimSpace(s) + after && Blank(before) && Blank(after) && Trimmed(TrimSpace(s))
    decreases |s|
  {
    if s != "" && IsSpace(s[0]) {
      before, after := TrimSpaceCuts(s[1..]);
      before := [s[0]] + before;
    } else if s != "" && IsSpace(s[|s| - 1]) {
      before, after := TrimSpaceCuts(s[..|s| - 1]);
      after := after + [s[|s| - 1]];
      assert s == s[..|s| - 1] + [s[|s| - 1]];
    } else {
      before, after := "", "";
    }
  }

  lemma {:induction false} TrimSpaceFinds(before: string, text: string, after: string)
    requires Blank(before) && Blank(after) && Trimmed(text)
    ensures TrimSpace(before + text + after) == text
    decreases |before| + |after|
  {
    var s := before + text + after;
    if before != "" {
      assert s[0] in before;
      assert s[1..] == before[1..] + text + after;
      TrimSpaceFinds(before[1..], text, after);
    } else if after != "" {
      assert s[|s| - 1] == after[|after| - 1] && after[|after| - 1] in after;
      if text == "" {
        assert s[0] in after && s[1..] == before + text + after[1..];
        TrimSpaceFinds(before, text, after[1..]);
      } else {
        assert s[0] == text[0];
        assert s[..|s| - 1] == before + text + after[..|after| - 1];
        TrimSpaceFinds(before, text, after[..|after| - 1]);
      }
    }
  }

  /** Two positions with a dash between them, and perhaps a slash and a size. The last position is not looked at. */
  predicate Spells(text: string, first: string, last: string, size: Option<string>, r: Range) {
    && '-' !in first && '/' !in first && '-' !in last && '/' !in last
    && ParseInt(first, 10) == Some(r.start)
    && (size.Some? ==> '/' !in size.value && r.size.Some? && ParseInt(size.value, 10) == r.size)
    && (size.None? ==> r.size.None?)
    && text == first + "-" + last + (if size.Some? then "/" + size.value else "")
  }

  /** A header that the agent reads as this range: the unit, and between blanks a text that spells it. */
  ghost predicate Says(header: string, r: Range) {
    exists before, text, after, first, last, size ::
      header == "bytes " + before + text + after && Blank(before) && Blank(after) && Trimmed(text)
      && Spells(text, first, last, size, r)
  }

  /** Exactly these headers are read, and as nothing else; every other one is refused. */
  lemma ParsedRangeExactly(header: string, r: Range)
    ensures ParseRange(header) == Some(r) <==> Says(header, r)
  {
    hide ParseRange, Says;
    if Says(header, r) { SaidIsParsed(header, r); }
    if ParseRange(header) == Some(r) { ParsedIsSaid(header, r); }
  }

  lemma SaidIsParsed(header: string, r: Range)
    requires Says(header, r)
    ensures ParseRange(header) == Some(r)
  {
    hide ParseRange, TrimSpace, Spells;
    var before, text, after, first, last, size :|
      header == "bytes " + before + text + after && Blank(before) && Blank(after) && Trimmed(text)
      && Spells(text, first, last, size, r);
    assert header[|"bytes "|..] == before + text + after;
    TrimSpaceFinds(before, text, after);
    SpelledIsParsed(header, first, last, size, r);
  }

  lemma ParsedIsSaid(header: string, r: Range)
    requires ParseRange(header) == Some(r)
    ensures Says(header, r)
  {
    hide TrimSpace, Spells, Blank, Trimmed;
    var before, after := TrimSpaceCuts(header[|"bytes "|..]);
    var text := TrimSpace(header[|"bytes "|..]);
    assert header == "bytes " + before + text + after;
    hide ParseRange;
    var first, last, size := ParsedIsSpelled(header, r);
  }

  lemma SpelledIsParsed(header: string, first: string, last: string, size: Option<string>, r: Range)
    requires "bytes " <= header && Spells(TrimSpace(header[|"bytes "|..]), first, last, size, r)
    ensures ParseRange(header) == Some(r)
  {
    hide ParseInt, TrimSpace, Split;
    var text := TrimSpace(header[|"bytes "|..]);
    SplitAt(first, '-', last);
    if size.Some? {
      SplitAt(first + "-" + last, '/', size.value);
      assert text == first + "-" + last + ['/'] + size.value;
    } else {
      SplitNone(first + "-" + last, '/');
      assert text == first + "-" + last;
    }
  }

  lemma ParsedIsSpelled(header: string, r: Range) returns (first: string, last: string, size: Option<string>)
    requires ParseRange(header) == Some(r)
    ensures Spells(TrimSpace(header[|"bytes "|..]), first, last, size, r)
  {
    hide ParseInt, TrimSpace;
    var text := TrimSpace(header[|"bytes "|..]);
    var outer := Split(text, '/');
    SplitJoins(text, '/');
    var inner := Split(outer[0], '-');
    SplitJoins(outer[0], '-');
    assert inner[0] in inner && inner[1] in inner && outer[0] in outer;
    first, last := inner[0], inner[1];
    assert outer[0] == first + ['-'] + last;
    assert '/' !in first && '/' !in last;
    if |outer| == 2 {
      assert outer[1] in outer && text == outer[0] + ['/'] + outer[1];
      size := Some(outer[1]);
    } else {
      size := None;
    }
  }

  /** Which answers are used: the right status, a readable range that does not start too late, and no other size. */
  lemma PartialStartExactly(status: int, header: string, offset: nat, contentLength: int, start: nat)
    ensures PartialStart(status, header, offset, contentLength) == Some(start) <==>
            && (offset == 0 || status == 206) && start <= offset
            && (Says(header, Range(start, None)) || Says(header, Range(start, Some(contentLength))))
  {
    hide ParseRange, Says;
    ParsedRangeExactly(header, Range(start, None));
    ParsedRangeExactly(header, Range(start, Some(contentLength)));
  }

  lemma StarIsNoNumber()
    ensures ParseInt("*", 10).None?
  {
    assert !IsDigit('*', 10);
    assert ParseNat("*", 10).None?;
  }

  // ---------------------------------------------------------------- streams

  datatype ReadError = NoError | EndOfFile | Broken | CannotResume

  /**
   A response body: it delivers its bytes in order, and may end or break at any point. A
   steady one fills every buffer as far as it can, and ends where its bytes end: with the
   last of them, or when it is asked for more.
   */
  class Stream {
    const body: seq<Byte>
    const steady: bool
    var pos: nat
    ghost var last: ReadError    // what the last Read returned

    constructor (body: seq<Byte>, steady: bool)
      ensures this.body == body && this.steady == steady && pos == 0
    {
      this.body, this.steady, pos, last := body, steady, 0, NoError;
    }

    method Read(buf: array<Byte>, from: nat) returns (n: nat, err: ReadError)
      requires from <= buf.Length && pos <= |body|
      modifies this, buf
      ensures pos == old(pos) + n <= |body| && from + n <= buf.Length
      ensures buf[..] == old(buf[..from]) + body[old(pos)..pos] + old(buf[from + n..])
      ensures !err.CannotResume? && last == err
      ensures steady ==>
                && n == Least(buf.Length - from, |body| - old(pos)) && (err.NoError? || err.EndOfFile?)
                && (pos < |body| ==> err.NoError?) && (old(pos) == |body| ==> err.EndOfFile?)
    {
      n :| from + n <= buf.Length && pos + n <= |body|;
      if steady { n := Least(buf.Length - from, |body| - pos); }
      err := *;
      if err.CannotResume? || (steady && err.Broken?) { err := if steady then NoError else Broken; }
      if steady && pos == |body| { err := EndOfFile; } else if steady && pos + n < |body| { err := NoError; }
      forall i | 0 <= i < n { buf[from + i] := body[pos + i]; }
      pos, last := pos + n, err;
    }

    /** io.CopyN into nothing. */
    method Discard(count: nat) returns (ok: bool)
      requires pos <= |body|
      modifies this
      ensures pos <= |body| && (ok ==> pos == old(pos) + count)
      ensures steady ==> (ok <==> old(pos) + count <= |body|)
    {
      ok := *;
      if steady { ok := true; }
      if ok && pos + count <= |body| { pos := pos + count; }
      else {
        var n: nat :| pos + n <= |body|;
        pos, ok := pos + n, false;
      }
    }
  }

  function Least(a: nat, b: nat): nat { if a < b then a else b }

  datatype Response = Response(status: int, header: string, body: Stream)

  /** The body is a piece of the artifact, from the position its Content-Range states. */
  predicate Matches(artifact: seq<Byte>, header: string, body: seq<Byte>) {
    var r := ParseRange(header);
    r.Some? ==> r.value.start <= |artifact| && body <= artifact[r.value.start..]
  }

  /** A server that answers well-formed ranges with what they say meets it. */
  lemma WellFormedMatches(artifact: seq<Byte>, first: nat, last: nat, size: Option<nat>, body: seq<Byte>)
    requires first <= last < |artifact| <= MAX_INT64 && (size.Some? ==> size.value == |artifact|)
    requires body <= artifact[first..last + 1]
    ensures Matches(artifact, RangeHeader(first, last, size), body)
  {
    hide ParseRange, RangeHeader;
    ParseRangeHeader(first, last, size);
    assert artifact[first..last + 1] == artifact[first..][..last + 1 - first];
  }

  /** The header of a server that sends the rest of an artifact of this length. */
  function RestHeader(from: nat, length: nat): string
    requires from < length
  {
    RangeHeader(from, length - 1, Some(length))
  }

  lemma RestMatches(artifact: seq<Byte>, from: nat)
    requires from < |artifact| <= MAX_INT64
    ensures Matches(artifact, RestHeader(from, |artifact|), artifact[from..])
    ensures PartialStart(PARTIAL_CONTENT, RestHeader(from, |artifact|), from, |artifact|) == Some(from)
  {
    hide ParseRange, RangeHeader, PartialStart;
    WellFormedMatches(artifact, from, |artifact| - 1, Some(|artifact|), artifact[from..]);
    RangeAcceptedExactly(PARTIAL_CONTENT, from, |artifact| - 1, Some(|artifact|), from, |artifact|);
  }

  /** A helpful server answers every request within the artifact with all of the rest, and delivers it. */
  class Server {
    const artifact: seq<Byte>
    const helpful: bool

    constructor (artifact: seq<Byte>, helpful: bool)
      ensures this.artifact == artifact && this.helpful == helpful
    {
      this.artifact, this.helpful := artifact, helpful;
    }

    /**
     Any answer, or none, to a request for the bytes from this position on; only a body
     that does not match its Content-Range is ruled out.
     */
    method Do(from: nat) returns (res: Option<Response>)
      ensures res.Some? ==>
                && fresh(res.value.body) && res.value.body.pos == 0
                && Matches(artifact, res.value.header, res.value.body.body)
      ensures helpful && from < |artifact| <= MAX_INT64 ==>
                && res.Some? && res.value.status == PARTIAL_CONTENT
                && res.value.header == RestHeader(from, |artifact|) && res.value.body.body == artifact[from..]
                && res.value.body.steady
    {
      hide ParseRange, RangeHeader;
      var fails: bool, status: int, header: string, bytes: seq<Byte>, steady: bool := *, *, *, *, *;
      if helpful && from < |artifact| <= MAX_INT64 {
        RestMatches(artifact, from);
        fails, status, header, bytes := false, PARTIAL_CONTENT, RestHeader(from, |artifact|), artifact[from..];
        steady := true;
      }
      if fails || !Matches(artifact, header, bytes) { return None; }
      var body := new Stream(bytes, steady);
      res := Some(Response(status, header, body));
    }
  }

  class UpdateResumer {
    var stream: Stream
    const server: Server
    var offset: nat
    const contentLength: int
    var retryAttempts: nat
    const maxWait: int
    const unit: Backoff.Unit
    ghost var start: nat    // where the present stream starts in the artifact

    ghost predicate Valid()
      reads this, stream, server
    {
      && start + stream.pos == offset && stream.pos <= |stream.body|
      && start + |stream.body| <= |server.artifact|
      && stream.body == server.artifact[start..start + |stream.body|]
      && retryAttempts <= Retries()
    }

    /** The retries of one download, over its lifetime. */
    ghost function Retries(): nat { Backoff.Budget(maxWait, 0, unit) }

    constructor (stream: Stream, server: Server, contentLength: int, maxWait: int, unit: Backoff.Unit)
      requires stream.pos == 0 && stream.body <= server.artifact && maxWait <= Backoff.MAX_DURATION / 2
      ensures Valid() && offset == 0 && retryAttempts == 0
      ensures this.stream == stream && this.server == server && this.contentLength == contentLength
      ensures this.maxWait == maxWait && this.unit == unit
    {
      this.stream, this.server, this.contentLength := stream, server, contentLength;
      this.maxWait, this.unit := maxWait, unit;
      offset, retryAttempts, start := 0, 0, 0;
    }

    /** getStreamFromPartialContent: the stream from offset on. */
    method StreamFromPartialContent(res: Response) returns (body: Option<Stream>, ghost first: nat)
      requires res.body.pos == 0 && Matches(server.artifact, res.header, res.body.body)
      modifies res.body
      ensures body.Some? ==>
                && body.value == res.body && first + res.body.pos == offset && res.body.pos <= |res.body.body|
                && first <= |server.artifact| && res.body.body <= server.artifact[first..]
                && PartialStart(res.status, res.header, offset, contentLength) == Some(first)
      ensures PartialStart(res.status, res.header, offset, contentLength) == Some(offset) ==> body.Some?
      ensures body.None? && res.body.steady ==>
                var start := PartialStart(res.status, res.header, offset, contentLength);
                start.None? || start.value + |res.body.body| < offset
    {
      first := 0;
      var newOffset := PartialStart(res.status, res.header, offset, contentLength);
      if newOffset.None? { return None, 0; }
      first := newOffset.value;
      if newOffset.value < offset {
        var ok := res.body.Discard(offset - newOffset.value);
        if !ok { return None, 0; }
      }
      body := Some(res.body);
    }

    /** The stream delivers all the rest of the artifact. */
    ghost predicate Whole()
      reads this, stream
    {
      stream.steady && start + |stream.body| == |server.artifact| == contentLength
    }

    /** Or it breaks off somewhere past the first byte, and the server helps. */
    ghost predicate Promising()
      reads this, stream, server
    {
      || Whole()
      || (&& stream.steady && server.helpful && contentLength == |server.artifact| <= MAX_INT64
          && retryAttempts < Retries() && start + |stream.body| > 0)
    }

    ghost predicate Helped()
      reads this
    {
      server.helpful && contentLength == |server.artifact| <= MAX_INT64 && offset < |server.artifact|
    }

    /** The inner loop: asks again until there is a stream or the retries are used up. */
    method Resume() returns (resumed: bool)
      requires Valid()
      requires maxWait <= Backoff.MAX_DURATION / 2
      modifies this
      ensures Valid() && offset == old(offset) && old(retryAttempts) <= retryAttempts
      ensures if resumed then fresh(stream) && retryAttempts > old(retryAttempts)
              else stream == old(stream) && retryAttempts == Retries()
      // a helpful server costs one retry
      ensures Helped() ==>
                if old(retryAttempts) < Retries() then
                  resumed && retryAttempts == old(retryAttempts) + 1 && Whole()
                else !resumed
    {
      hide RestHeader, Backoff.Budget, Backoff.Time, PartialStart, ParseRange;
      ghost var helped := Helped();
      if helped { RestMatches(server.artifact, offset); }
      while true
        invariant Valid() && offset == old(offset) && stream == old(stream) && start == old(start)
        invariant old(retryAttempts) <= retryAttempts && (helped ==> retryAttempts == old(retryAttempts))
        decreases Retries() - retryAttempts
      {
        Backoff.GivesUpExactlyAtBudget(retryAttempts, maxWait, 0, unit);
        var wait := Backoff.GetExponentialBackoffTime(retryAttempts, maxWait, 0, unit);
        if wait.None? { return false; }
        retryAttempts := retryAttempts + 1;
        var res := server.Do(offset);
        if res.Some? {
          ghost var first;
          var body;
          body, first := StreamFromPartialContent(res.value);
          if body.Some? {
            stream, start := body.value, first;
            return true;
          }
        }
      }
    }

    /** One Read of the present stream, into the part of the buffer that is not filled yet. */
    method ReadOnce(buf: array<Byte>, origOffset: nat, ghost initial: seq<Byte>) returns (err: ReadError)
      requires Valid() && origOffset <= offset && offset - origOffset <= buf.Length == |initial|
      requires buf[..] == Filled(server.artifact, origOffset, offset, initial)
      modifies this`offset, stream, buf
      ensures Valid() && old(offset) <= offset <= |server.artifact| && offset - origOffset <= buf.Length
      ensures buf[..] == Filled(server.artifact, origOffset, offset, initial)
      ensures !err.CannotResume? && err == stream.last
      ensures stream.steady ==>
                && offset - old(offset)
                   == Least(buf.Length - (old(offset) - origOffset), |stream.body| - old(stream.pos))
                && (err.NoError? || err.EndOfFile?) && (stream.pos < |stream.body| ==> err.NoError?)
                && (old(stream.pos) == |stream.body| ==> err.EndOfFile?)
    {
      ghost var (before, at, first) := (buf[..], stream.pos, offset);
      var bytesRead;
      bytesRead, err := stream.Read(buf, offset - origOffset);
      if bytesRead > 0 { offset := offset + bytesRead; }
      SliceOf(server.artifact, stream.body, start, at, bytesRead);
      Appended(server.artifact, origOffset, first, offset, before, initial, buf[..]);
    }

    method Read(buf: array<Byte>) returns (n: nat, err: ReadError)
      requires Valid() && maxWait <= Backoff.MAX_DURATION / 2
      modifies this, stream, buf
      ensures Valid() && (stream == old(stream) || fresh(stream))
      ensures n <= buf.Length && offset == old(offset) + n <= |server.artifact|
      ensures buf[..] == Filled(server.artifact, old(offset), offset, old(buf[..]))
      ensures err.EndOfFile? ==> offset >= contentLength || offset == 0
      ensures err.Broken? ==> offset == 0
      ensures err.CannotResume? ==> retryAttempts == Retries()
      ensures old(retryAttempts) <= retryAttempts && (retryAttempts == old(retryAttempts) ==> stream == old(stream))
      // what the last stream said is passed on, but for an end or a break in the middle of the artifact
      ensures err == if stream.last.NoError? || offset == 0 || (stream.last.EndOfFile? && offset >= contentLength)
                     then stream.last else CannotResume
      // a stream with all the rest is read to its end, and then the end is reported
      ensures old(Whole()) ==>
                && Whole() && stream == old(stream) && retryAttempts == old(retryAttempts)
                && n == Least(buf.Length, |server.artifact| - old(offset))
      ensures old(Promising()) ==>
                && Promising() && (err.NoError? || (err.EndOfFile? && offset == |server.artifact|))
                && (buf.Length > 0 && old(offset) < |server.artifact| ==> n > 0)
                && (old(offset) == |server.artifact| ==> err.EndOfFile?)
    {
      hide Filled, Backoff.Budget;
      ghost var artifact := server.artifact;
      var origOffset := offset;
      NothingFilled(artifact, origOffset, buf[..]);
      while true
        invariant Valid() && (stream == old(stream) || fresh(stream))
        invariant origOffset <= offset && offset - origOffset <= buf.Length
        invariant offset <= |artifact| && buf[..] == Filled(artifact, origOffset, offset, old(buf[..]))
        invariant old(retryAttempts) <= retryAttempts
        invariant (retryAttempts == old(retryAttempts)) == (stream == old(stream))
        invariant stream == old(stream) ==>
                    offset == old(offset) && stream.pos == old(stream.pos) && start == old(start)
        invariant stream != old(stream) && old(Promising()) ==> Whole() && offset > 0 && offset < |artifact|
        invariant old(Whole()) ==> stream == old(stream)
        decreases Retries() - retryAttempts
      {
        err := ReadOnce(buf, origOffset, old(buf[..]));
        if err.NoError? || offset <= 0 || (err.EndOfFile? && offset >= contentLength) {
          return offset - origOffset, err;
        }
        var resumed := Resume();
        if !resumed { return offset - origOffset, CannotResume; }
      }
    }
  }

  lemma SliceOf(artifact: seq<Byte>, body: seq<Byte>, start: nat, at: nat, n: nat)
    requires start + |body| <= |artifact| && body == artifact[start..start + |body|] && at + n <= |body|
    ensures body[at..at + n] == artifact[start + at..start + at + n]
  {
    var (a, b) := (body[at..at + n], artifact[start + at..start + at + n]);
    forall i | 0 <= i < n ensures a[i] == b[i] {
      assert body[at + i] == artifact[start + (at + i)];
    }
  }

  /** A buffer whose first bytes are the artifact's from orig up to last. */
  ghost function Filled(artifact: seq<Byte>, orig: nat, last: nat, initial: seq<Byte>): seq<Byte>
    requires orig <= last <= |artifact| && last - orig <= |initial|
  {
    artifact[orig..last] + initial[last - orig..]
  }

  lemma Appended(artifact: seq<Byte>, orig: nat, first: nat, last: nat, before: seq<Byte>, initial: seq<Byte>,
      after: seq<Byte>)
    requires orig <= first <= last <= |artifact| && last - orig <= |initial|
    requires before == Filled(artifact, orig, first, initial)
    requires after == before[..first - orig] + artifact[first..last] + before[last - orig..]
    ensures after == Filled(artifact, orig, last, initial)
  {
    assert before[..first - orig] == artifact[orig..first];
    assert before[last - orig..] == initial[last - orig..];
    assert artifact[orig..first] + artifact[first..last] == artifact[orig..last];
  }

  lemma NothingFilled(artifact: seq<Byte>, orig: nat, initial: seq<Byte>)
    requires orig <= |artifact|
    ensures Filled(artifact, orig, orig, initial) == initial
  {
  }

  lemma Gathered(artifact: seq<Byte>, first: nat, last: nat)
    requires first <= last <= |artifact|
    ensures artifact[..first] + artifact[first..last] == artifact[..last]
  {
  }

  /** One Read of the caller, into a buffer of this size. */
  method ReadPiece(h: UpdateResumer, size: nat) returns (piece: seq<Byte>, err: ReadError)
    requires h.Valid() && h.maxWait <= Backoff.MAX_DURATION / 2
    modifies h, h.stream
    ensures h.Valid() && (h.stream == old(h.stream) || fresh(h.stream))
    ensures old(h.offset) <= h.offset <= |h.server.artifact| && piece == h.server.artifact[old(h.offset)..h.offset]
    ensures err.EndOfFile? ==> h.offset >= h.contentLength || h.offset == 0
    ensures err.Broken? ==> h.offset == 0
    ensures err.CannotResume? ==> h.retryAttempts == h.Retries()
    ensures old(h.Promising()) && size > 0 ==>
              && h.Promising()
              && if err.NoError? then h.offset > old(h.offset) else err.EndOfFile? && h.offset == |h.server.artifact|
  {
    hide Backoff.Budget;
    var buf := new Byte[size];
    ghost var first := h.offset;
    var n;
    n, err := h.Read(buf);
    piece := buf[..n];
    assert piece == h.server.artifact[first..h.offset];
  }

  /**
   A whole download, as the caller sees it: Read into buffers of any sizes, until an
   error. The bytes are those of the artifact, nothing skipped and nothing repeated.
   */
  method Download(h: UpdateResumer, sizes: seq<nat>) returns (got: seq<Byte>, err: ReadError)
    requires h.Valid() && h.offset == 0 && h.maxWait <= Backoff.MAX_DURATION / 2
    modifies h, h.stream
    ensures h.Valid() && h.offset <= |h.server.artifact| && got == h.server.artifact[..h.offset]
    ensures err.EndOfFile? && got != [] ==> |got| >= h.contentLength
    ensures err.EndOfFile? && got != [] && h.contentLength == |h.server.artifact| ==> got == h.server.artifact
    ensures err.Broken? ==> got == []
    ensures err.CannotResume? ==> h.retryAttempts == h.Retries()
    // whatever the buffers, the whole artifact arrives and then its end, unless the stream breaks without help
    ensures old(h.Promising()) && |sizes| > |h.server.artifact| && (forall i :: 0 <= i < |sizes| ==> sizes[i] > 0) ==>
              err.EndOfFile? && got == h.server.artifact
  {
    hide UpdateResumer.Valid, UpdateResumer.Promising, Backoff.Budget;
    got, err := [], NoError;
    var i := 0;
    while i < |sizes| && err.NoError?
      invariant i <= |sizes|
      invariant h.Valid() && (h.stream == old(h.stream) || fresh(h.stream))
      invariant h.offset <= |h.server.artifact| && got == h.server.artifact[..h.offset]
      invariant err.EndOfFile? ==> h.offset >= h.contentLength || h.offset == 0
      invariant err.Broken? ==> h.offset == 0
      invariant err.CannotResume? ==> h.retryAttempts == h.Retries()
      invariant old(h.Promising()) && (forall i :: 0 <= i < |sizes| ==> sizes[i] > 0) ==>
                  && h.Promising()
                  && if err.NoError? then i <= h.offset else err.EndOfFile? && h.offset == |h.server.artifact|
    {
      ghost var first := h.offset;
      var piece;
      piece, err := ReadPiece(h, sizes[i]);
      Gathered(h.server.artifact, first, h.offset);
      got := got + piece;
      i := i + 1;
    }
  }
}
