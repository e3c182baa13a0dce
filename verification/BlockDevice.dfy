/**
 The chain of writers that puts an image on a partition (installer/block_device.go,
 utils/limited_writer.go): limit, gather frames, skip the frames that are already
 there, sync now and then. It is proved equal to a plain copy of the image.
 */
module BlockDevice {
  import opened Wrappers
  import Backoff

  datatype Err = NoErr | EOF | NoSpace | IoError

  // --------------------------------------------------------- what is promised

  function Min(a: nat, b: nat): nat { if a < b then a else b }

  /** base, overwritten from its start. */
  function Overwritten(base: seq<Byte>, image: seq<Byte>): seq<Byte>
    requires |image| <= |base|
  {
    image + base[|image|..]
  }

  function Offset(f: nat, k: nat): nat { k * f }

  function Start(image: seq<Byte>, f: nat, k: nat): (start: nat)
    ensures start <= |image|
  {
    Min(Offset(f, k), |image|)
  }

  function End(image: seq<Byte>, f: nat, k: nat): (end: nat)
    ensures Start(image, f, k) <= end <= |image|
  {
    Min(Offset(f, k) + f, |image|)
  }

  /**
   Frame k of the image, cut into frames of size f, is not what the device holds. The
   last frame is shorter, and may be empty.
   */
  predicate DirtyFrame(base: seq<Byte>, image: seq<Byte>, f: nat, k: nat)
    requires |image| <= |base|
  {
    base[Start(image, f, k)..End(image, f, k)] != image[Start(image, f, k)..End(image, f, k)]
  }

  /** How many of the first n frames are. */
  function Dirty(base: seq<Byte>, image: seq<Byte>, f: nat, n: nat): nat
    requires |image| <= |base|
  {
    if n == 0 then 0 else Dirty(base, image, f, n - 1) + if DirtyFrame(base, image, f, n - 1) then 1 else 0
  }

  /** The syncs of writing n frames: one for each dirty one that is as long as the interval, and one in the end. */
  function Syncs(base: seq<Byte>, image: seq<Byte>, f: nat, n: nat, interval: nat): nat
    requires |image| <= |base|
  {
    var last := if n == 0 then 0 else End(image, f, n - 1) - Start(image, f, n - 1);
    Dirty(base, image, f, n) + if n > 0 && DirtyFrame(base, image, f, n - 1) && last < interval then 0 else 1
  }

  /** That count is the number of frames holding a byte that differs. */
  lemma {:induction false} DirtyCountsFrames(base: seq<Byte>, image: seq<Byte>, f: nat, n: nat)
    requires |image| <= |base|
    ensures Dirty(base, image, f, n) == |DirtySet(base, image, f, n)|
  {
    hide Start, End, DirtyFrame;
    if n > 0 {
      DirtyCountsFrames(base, image, f, n - 1);
      DirtyFrameHasByte(base, image, f, n - 1);
      assert DirtySet(base, image, f, n)
          == DirtySet(base, image, f, n - 1) + if DirtyFrame(base, image, f, n - 1) then {n - 1} else {};
    }
  }

  predicate Differs(base: seq<Byte>, image: seq<Byte>, f: nat, k: nat)
    requires |image| <= |base|
  {
    exists i :: Start(image, f, k) <= i < End(image, f, k) && base[i] != image[i]
  }

  lemma DirtyFrameHasByte(base: seq<Byte>, image: seq<Byte>, f: nat, k: nat)
    requires |image| <= |base|
    ensures DirtyFrame(base, image, f, k) <==> Differs(base, image, f, k)
  {
    hide Start, End;
    var start := Start(image, f, k);
    var a, b := base[start..End(image, f, k)], image[start..End(image, f, k)];
    if a != b {
      var j :| 0 <= j < |a| && a[j] != b[j];
      assert base[start + j] != image[start + j];
    } else {
      forall i | start <= i < End(image, f, k) ensures base[i] == image[i] {
        assert a[i - start] == base[i] && b[i - start] == image[i];
      }
    }
  }

  function DirtySet(base: seq<Byte>, image: seq<Byte>, f: nat, n: nat): set<nat>
    requires |image| <= |base|
  {
    set k: nat | k < n && Differs(base, image, f, k)
  }

  // ------------------------------------------------------------- the device

  /** A partition opened for reading and writing. A device that is not healthy may fail at any time. */
  class File {
    const healthy: bool
    var content: seq<Byte>
    var durable: seq<Byte>    // what would be found after a power loss
    var pos: nat
    var writes: nat           // how many writes it has been given
    var syncs: nat            // how often it has been synced
    var closed: Option<Err>   // the result of closing it, once it has been closed

    constructor (content: seq<Byte>, healthy: bool)
      ensures this.content == content && durable == content && pos == writes == syncs == 0 && this.healthy == healthy
      ensures closed.None?
    {
      this.content, durable, pos, writes, syncs, closed := content, content, 0, 0, 0, None;
      this.healthy := healthy;
    }

    /** io.ReadFull. */
    method ReadFull(count: nat) returns (data: seq<Byte>, err: Err)
      requires pos <= |content|
      modifies this`pos
      ensures old(pos) <= pos <= |content|
      ensures err.NoErr? ==> pos == old(pos) + count && data == content[old(pos)..pos]
      ensures err.EOF? ==> count > 0 && old(pos) == |content|
      ensures !err.NoSpace?
      ensures err.NoErr? || pos <= old(pos) + count
      ensures healthy && old(pos) + count <= |content| ==> err.NoErr?
    {
      data := [];
      if count == 0 { return [], NoErr; }
      if pos == |content| { return [], EOF; }
      var fails: bool := *;
      if (fails && !healthy) || pos + count > |content| {
        var got: nat :| got <= count && pos + got <= |content|;
        pos := pos + got;
        return [], IoError;
      }
      data := content[pos..pos + count];
      pos := pos + count;
      err := NoErr;
    }

    method SeekBack(offset: nat) returns (err: Err)
      requires offset <= pos
      modifies this`pos
      ensures err.NoErr? || err.IoError?
      ensures pos == if err.NoErr? then old(pos) - offset else old(pos)
      ensures healthy ==> err.NoErr?
    {
      var fails: bool := *;
      if fails && !healthy { return IoError; }
      pos := pos - offset;
      err := NoErr;
    }

    method Write(p: seq<Byte>) returns (n: nat, err: Err)
      requires pos <= |content|
      modifies this`pos, this`content, this`writes
      ensures n <= |p| && pos == old(pos) + n <= |content| == old(|content|)
      ensures content == old(content)[..old(pos)] + p[..n] + old(content)[old(pos) + n..]
      ensures err.NoErr? ==> n == |p|
      ensures err.NoErr? || err.IoError?
      ensures writes == old(writes) + 1
      ensures healthy && old(pos) + |p| <= |content| ==> err.NoErr?
    {
      var fails: bool := *;
      if (fails && !healthy) || pos + |p| > |content| {
        n :| n <= |p| && pos + n <= |content|;
        err := IoError;
      } else {
        n, err := |p|, NoErr;
      }
      content := content[..pos] + p[..n] + content[pos + n..];
      pos, writes := pos + n, writes + 1;
    }

    method Sync() returns (err: Err)
      modifies this`durable, this`syncs
      ensures err.NoErr? || err.IoError?
      ensures syncs == old(syncs) + 1
      ensures durable == if err.NoErr? then content else old(durable)
      ensures healthy ==> err.NoErr?
    {
      var fails: bool := *;
      syncs := syncs + 1;
      if fails && !healthy { return IoError; }
      durable, err := content, NoErr;
    }

    method Close() returns (err: Err)
      modifies this`closed
      ensures err.NoErr? || err.IoError?
      ensures healthy ==> err.NoErr?
      ensures closed == Some(err)
    {
      var fails: bool := *;
      err := if fails && !healthy then IoError else NoErr;
      closed := Some(err);
    }
  }

  // ------------------------------------------------------------ the writers

  /** Calls Sync whenever interval bytes have been written since the last one. */
  class FlushingWriter {
    const file: File
    const interval: nat
    var unflushed: nat

    constructor (file: File, interval: nat)
      ensures this.file == file && this.interval == interval && unflushed == 0
    {
      this.file, this.interval, unflushed := file, interval, 0;
    }

    method Write(p: seq<Byte>) returns (n: nat, err: Err)
      requires file.pos <= |file.content|
      modifies this, file
      ensures n <= |p| && file.pos == old(file.pos) + n <= |file.content| == old(|file.content|)
      ensures file.content == old(file.content)[..old(file.pos)] + p[..n] + old(file.content)[old(file.pos) + n..]
      ensures file.writes == old(file.writes) + 1
      ensures err.NoErr? ==>
                && n == |p|
                && (if old(unflushed) + n < interval then
                      unflushed == old(unflushed) + n && file.syncs == old(file.syncs)
                      && file.durable == old(file.durable)
                    else unflushed == 0 && file.syncs == old(file.syncs) + 1 && file.durable == file.content)
      ensures err.NoErr? || err.IoError?
      ensures file.healthy && old(file.pos) + |p| <= |file.content| ==> err.NoErr?
    {
      n, err := file.Write(p);
      unflushed := unflushed + n;
      if err.NoErr? && unflushed >= interval { err := Sync(); }
    }

    method Sync() returns (err: Err)
      modifies this, file`durable, file`syncs
      ensures file.syncs == old(file.syncs) + 1
      ensures unflushed == 0 && (err.NoErr? || err.IoError?) && (file.healthy ==> err.NoErr?)
      ensures file.durable == if err.NoErr? then file.content else old(file.durable)
    {
      err := file.Sync();
      unflushed := 0;
    }

    method Close() returns (err: Err)
      modifies this, file`durable, file`syncs, file`closed
      ensures file.closed.Some? && (err.NoErr? ==> file.closed == Some(NoErr))
      ensures (err.NoErr? || err.IoError?) && (file.healthy ==> err.NoErr?)
      ensures file.syncs == old(file.syncs) + 1
      ensures err.NoErr? ==> file.durable == file.content
    {
      var syncErr := Sync();
      var closeErr := file.Close();
      err := if syncErr.NoErr? then closeErr else syncErr;
    }
  }

  lemma Spliced(before: seq<Byte>, b: seq<Byte>, p: nat, n: nat)
    requires n <= |b| && p + n <= |before|
    ensures var after := before[..p] + b[..n] + before[p + n..];
            && |after| == |before| && after[..p] == before[..p]
            && (p + |b| <= |before| ==> after[p + |b|..] == before[p + |b|..])
            && (n == |b| ==> after == before[..p] + b + before[p + |b|..])
  {
  }

  /** Writes a frame only if the device does not hold it already. */
  class OptimizedBlockDeviceWriter {
    const device: FlushingWriter
    var totalFrames: nat
    var dirtyFrames: nat

    constructor (device: FlushingWriter)
      ensures this.device == device && totalFrames == dirtyFrames == 0
    {
      this.device, totalFrames, dirtyFrames := device, 0, 0;
    }

    /** The device after n more bytes, if any: synced exactly when they fill up the interval. */
    ghost predicate Flushed(unflushed: nat, n: nat, syncs: nat)
      reads device, device.file
    {
      if n > 0 && unflushed + n >= device.interval then device.unflushed == 0 && device.file.syncs == syncs + 1
      else device.unflushed == unflushed + n && device.file.syncs == syncs
    }

    method Write(b: seq<Byte>) returns (n: nat, err: Err)
      requires device.file.pos <= |device.file.content|
      modifies this, device, device.file
      ensures var (f, p) := (device.file, old(device.file.pos));
              && |f.content| == old(|f.content|) && f.pos <= |f.content|
              && (err.NoErr? ==>
                    && f.pos == p + |b| && n == |b|
                    && f.content == old(f.content)[..p] + b + old(f.content)[p + |b|..]
                    && totalFrames == old(totalFrames) + 1
                    && dirtyFrames == old(dirtyFrames) + (if old(f.content)[p..p + |b|] == b then 0 else 1)
                    && f.writes == old(f.writes) + dirtyFrames - old(dirtyFrames)
                    && Flushed(old(device.unflushed), if dirtyFrames == old(dirtyFrames) then 0 else |b|,
                               old(f.syncs)))
              && (err.EOF? ==> |b| > 0 && p == |f.content|) && !err.NoSpace?
              && (!err.NoErr? && f.writes == old(f.writes) ==> n == 0)
              && (f.healthy && p + |b| <= |f.content| ==> err.NoErr?)
              // on failure, nothing outside the frame is touched
              && f.pos <= p + |b| && f.content[..p] == old(f.content)[..p]
              && (p + |b| <= |f.content| ==> f.content[p + |b|..] == old(f.content)[p + |b|..])
    {
      ghost var before, p := device.file.content, device.file.pos;
      var payload, readErr := device.file.ReadFull(|b|);
      if !readErr.NoErr? { return 0, readErr; }
      if payload != b {
        err := device.file.SeekBack(|b|);
        if !err.NoErr? { return 0, err; }
        totalFrames := totalFrames + 1;
        dirtyFrames := dirtyFrames + 1;
        n, err := device.Write(b);
        Spliced(before, b, p, n);
      } else {
        totalFrames := totalFrames + 1;
        n, err := |b|, NoErr;
        assert before == before[..p] + before[p..p + |b|] + before[p + |b|..];
      }
    }

    method Close() returns (err: Err)
      modifies device, device.file`durable, device.file`syncs, device.file`closed
      ensures device.file.closed.Some? && (err.NoErr? ==> device.file.closed == Some(NoErr))
      ensures (err.NoErr? || err.IoError?) && (device.file.healthy ==> err.NoErr?)
      ensures device.file.syncs == old(device.file.syncs) + 1
      ensures err.NoErr? ==> device.file.durable == device.file.content
    {
      err := device.Close();
    }
  }

  lemma NextOffset(f: nat, k: nat)
    ensures Offset(f, k + 1) == Offset(f, k) + f
  {
  }

  /** Frames that are complete do not change as more of the image arrives. */
  lemma {:induction false} DirtyGrows(base: seq<Byte>, image: seq<Byte>, more: seq<Byte>, f: nat, k: nat)
    requires Offset(f, k) <= |image| && |image + more| <= |base|
    ensures Dirty(base, image + more, f, k) == Dirty(base, image, f, k)
  {
    hide Offset, DirtyFrame;
    if k > 0 {
      NextOffset(f, k - 1);
      DirtyGrows(base, image, more, f, k - 1);
      CompleteFrame(base, image, more, f, k - 1);
    }
  }

  lemma CompleteFrame(base: seq<Byte>, image: seq<Byte>, more: seq<Byte>, f: nat, k: nat)
    requires Offset(f, k) + f <= |image| && |image + more| <= |base|
    ensures DirtyFrame(base, image + more, f, k) <==> DirtyFrame(base, image, f, k)
  {
    hide Offset;
    var (start, end) := (Offset(f, k), Offset(f, k) + f);
    assert (image + more)[start..end] == image[start..end];
  }

  lemma MinIs(a: nat, b: nat)
    ensures Min(a, b) <= a && Min(a, b) <= b && (Min(a, b) == a || Min(a, b) == b)
  {
  }

  lemma OverwriteNext(base: seq<Byte>, image: seq<Byte>, p: nat, size: nat)
    requires p + size <= |image| <= |base|
    ensures var (c, c') := (Overwritten(base, image[..p]), Overwritten(base, image[..p + size]));
            && |c| == |c'| == |base| && c[p..p + size] == base[p..p + size]
            && c[..p] + image[p..p + size] + c[p + size..] == c'
            && (c[p..p + size] == image[p..p + size] ==> c == c')
            && c[|image|..] == c'[|image|..] == base[|image|..]
  {
    var c := Overwritten(base, image[..p]);
    assert c == c[..p] + c[p..p + size] + c[p + size..];
  }

  lemma DirtyNext(base: seq<Byte>, image: seq<Byte>, f: nat, k: nat, p: nat, size: nat)
    requires p == Offset(f, k) <= |image| <= |base| && size == Min(f, |image| - p)
    ensures Dirty(base, image, f, k + 1) == Dirty(base, image, f,
        k) + if base[p..p + size] == image[p..p + size] then 0 else 1
  {
    hide Offset;
  }

  lemma LastFrame(base: seq<Byte>, image: seq<Byte>, f: nat, k: nat, p: nat, size: nat, interval: nat)
    requires p == Offset(f, k) <= |image| <= |base| && size == Min(f, |image| - p)
    ensures Syncs(base, image, f, k + 1, interval) ==
            Dirty(base, image, f, k + 1) + if base[p..p + size] != image[p..p + size] && size < interval then 0 else 1
  {
    hide Dirty, DirtyFrame, Start, End;
    FrameBounds(base, image, f, k, p, size);
  }

  lemma FrameBounds(base: seq<Byte>, image: seq<Byte>, f: nat, k: nat, p: nat, size: nat)
    requires p == Offset(f, k) <= |image| <= |base| && size == Min(f, |image| - p)
    ensures Start(image, f, k) == p && End(image, f, k) == p + size
    ensures DirtyFrame(base, image, f, k) <==> base[p..p + size] != image[p..p + size]
  {
    hide Offset;
  }

  lemma TailKept(before: seq<Byte>, after: seq<Byte>, p: nat, hi: nat)
    requires |after| == |before| && p <= hi <= |before| && after[p..] == before[p..]
    ensures after[hi..] == before[hi..]
  {
    assert after[hi..] == after[p..][hi - p..];
    assert before[hi..] == before[p..][hi - p..];
  }

  lemma UntouchedYet(base: seq<Byte>, image: seq<Byte>, p: nat)
    requires p <= |image| <= |base|
    ensures var c := Overwritten(base, image[..p]); |c| == |base| && c[|image|..] == base[|image|..]
  {
  }

  lemma Quotient(n: nat, f: nat)
    requires f > 0
    ensures Offset(f, n / f) <= n < Offset(f, n / f) + f
  {
  }

  lemma OffsetGrows(f: nat, a: nat, b: nat)
    requires a <= b
    ensures Offset(f, a) <= Offset(f, b) && Offset(f, 0) == 0
  {
  }

  /** The chain has put the image on the device, for good, and counted its frames. */
  ghost predicate Written(base: seq<Byte>, image: seq<Byte>, dev: File, chunk: nat, total: nat, dirty: nat)
    reads dev
  {
    && |image| <= |base| && dev.content == dev.durable == Overwritten(base, image)
    && total > 0 && Offset(chunk, total - 1) <= |image| < Offset(chunk, total)
    && dirty == Dirty(base, image, chunk, total)
  }

  /** Gathers what is written into frames. */
  class BlockFrameWriter {
    const frameSize: nat
    const w: OptimizedBlockDeviceWriter
    var buf: seq<Byte>
    ghost const base: seq<Byte>    // what was on the device
    ghost const firstWrite: nat    // the writes the device had been given before
    ghost const firstSync: nat     // and the syncs
    ghost var image: seq<Byte>     // what has been accepted

    constructor (w: OptimizedBlockDeviceWriter, frameSize: nat)
      requires w.totalFrames == w.dirtyFrames == 0 && w.device.file.pos == 0
      requires w.device.unflushed == 0 && frameSize >= w.device.interval && frameSize > 0
      ensures Valid() && image == [] && base == w.device.file.content && firstWrite == w.device.file.writes
      ensures firstSync == w.device.file.syncs
      ensures this.w == w && this.frameSize == frameSize
    {
      this.w, this.frameSize, buf := w, frameSize, [];
      base, image, firstWrite, firstSync := w.device.file.content, [], w.device.file.writes, w.device.file.syncs;
    }

    /** The frames on the device and the buffer make up the image; the rest of the device is as it was. */
    ghost predicate InStep()
      reads this, w, w.device, w.device.file
    {
      var f := w.device.file;
      && frameSize > 0 && frameSize >= w.device.interval
      && w.device.unflushed == 0 && f.syncs == firstSync + w.dirtyFrames
      && f.pos == Offset(frameSize, w.totalFrames) <= |image| <= |base|
      && buf == image[f.pos..]
      && f.content == Overwritten(base, image[..f.pos])
      && w.dirtyFrames == Dirty(base, image, frameSize, w.totalFrames)
      && f.writes == firstWrite + w.dirtyFrames
    }

    ghost predicate Valid()
      reads this, w, w.device, w.device.file
    {
      InStep() && |buf| < frameSize
    }


    /** Nothing from hi on has been touched, and what is buffered cannot reach it. */
    ghost predicate Within(hi: nat)
      reads this, w.device.file
    {
      var f := w.device.file;
      f.pos + |buf| <= hi <= |f.content| == |base| && f.content[hi..] == base[hi..]
    }

    /** One Write of the optimised writer, with bytes taken from the buffer. */
    method WriteFrame(size: nat) returns (err: Err)
      requires Within(|image|) && size <= |buf|
      modifies this`buf, w, w.device, w.device.file
      ensures buf == old(buf)[size..] && Within(|image|)
      ensures old(InStep()) && size == Min(frameSize, |old(buf)|) && err.NoErr? ==>
                && w.totalFrames == old(w.totalFrames) + 1
                && w.device.file.pos == old(w.device.file.pos) + size
                && w.device.file.content == Overwritten(base, image[..w.device.file.pos])
                && w.dirtyFrames == Dirty(base, image, frameSize, w.totalFrames)
                && w.device.file.writes == firstWrite + w.dirtyFrames
                && w.device.file.syncs + 1
                   == firstSync + Syncs(base, image, frameSize, w.totalFrames, w.device.interval)
      ensures old(InStep()) && size == frameSize && err.NoErr? ==>
                w.device.unflushed == 0 && w.device.file.syncs == firstSync + w.dirtyFrames
      ensures w.device.file.healthy ==> err.NoErr?
      ensures err.NoErr? || err.IoError?
    {
      hide Offset, Dirty, Overwritten, Min, Syncs;
      ghost var (p, k, before) := (w.device.file.pos, w.totalFrames, w.device.file.content);
      MinIs(frameSize, |buf|);
      var b := buf[..size];
      if InStep() && size == Min(frameSize, |buf|) {
        NextOffset(frameSize, k);
        OverwriteNext(base, image, p, size);
        DirtyNext(base, image, frameSize, k, p, size);
        LastFrame(base, image, frameSize, k, p, size, w.device.interval);
        assert b == image[p..p + size] && buf[size..] == image[p + size..];
      }
      buf := buf[size..];
      var n;
      n, err := w.Write(b);
      TailKept(before, w.device.file.content, p + size, |image|);
    }

    method Write(b: seq<Byte>) returns (n: nat, err: Err)
      requires Valid() && |image| + |b| <= |base|
      modifies this, w, w.device, w.device.file
      ensures image == old(image) + b && Within(|image|)
      ensures if err.NoErr? then Valid() && n == |b| else n == 0
      ensures w.device.file.healthy ==> err.NoErr?
      ensures err.NoErr? || err.IoError?
    {
      hide Offset, Dirty, Overwritten;
      DirtyGrows(base, image, b, frameSize, w.totalFrames);
      assert (image + b)[..w.device.file.pos] == image[..w.device.file.pos];
      buf, image := buf + b, image + b;
      UntouchedYet(base, image, w.device.file.pos);
      if |buf| < frameSize { return |b|, NoErr; }
      var nFrames := |buf| / frameSize;
      Quotient(|buf|, frameSize);
      NextOffset(frameSize, nFrames);
      OffsetGrows(frameSize, 0, nFrames);
      var i := 0;
      ghost var len := |buf|;
      while i < nFrames
        invariant i <= nFrames && InStep() && Within(|image|) && image == old(image) + b
        invariant |buf| == len - Offset(frameSize, i)
      {
        OffsetGrows(frameSize, i + 1, nFrames);
        NextOffset(frameSize, i);
        NextOffset(frameSize, w.totalFrames);
        err := WriteFrame(frameSize);
        if !err.NoErr? { return 0, err; }
        i := i + 1;
      }
      assert i == nFrames;
      assert |buf| < frameSize;
      n, err := |b|, NoErr;
    }

    /** Writes what is left as a last frame. */
    method Close() returns (err: Err)
      requires Within(|image|)
      modifies this`buf, w, w.device, w.device.file
      ensures w.device.file.closed.Some? && (err.NoErr? ==> w.device.file.closed == Some(NoErr))
      ensures Within(|image|)
      ensures old(Valid()) && err.NoErr? ==>
                && Written(base, image, w.device.file, frameSize, w.totalFrames, w.dirtyFrames)
                && w.device.file.writes == firstWrite + w.dirtyFrames
                && w.device.file.syncs == firstSync + Syncs(base, image, frameSize, w.totalFrames, w.device.interval)
      ensures w.device.file.healthy ==> err.NoErr?
    {
      hide Offset, Dirty, Overwritten;
      NextOffset(frameSize, w.totalFrames);
      err := WriteFrame(|buf|);
      assert image[..|image|] == image;
      var closeErr := w.Close();
      if !closeErr.NoErr? { err := closeErr; } else if err.EOF? { err := NoErr; }
    }
  }

  /** Passes on no more than n bytes in all. */
  class LimitedWriteCloser {
    const w: BlockFrameWriter
    var n: nat

    constructor (w: BlockFrameWriter, n: nat)
      ensures this.w == w && this.n == n
    {
      this.w, this.n := w, n;
    }

    method Write(p: seq<Byte>) returns (written: nat, err: Err)
      requires w.Valid() && |w.image| + n <= |w.base|
      modifies this, w, w.w, w.w.device, w.w.device.file
      ensures w.image == old(w.image) + p[..Min(|p|, old(n))] && w.Within(|w.image|)
      ensures err.NoErr? ==> |p| <= old(n) && written == |p|
      ensures err.NoErr? || err.NoSpace? ==> w.Valid() && n == old(n) - Min(|p|, old(n))
      ensures err.NoSpace? ==> |p| > old(n) && written == old(n)
      ensures w.w.device.file.healthy ==> (if |p| <= old(n) then err.NoErr? else err.NoSpace?)
    {
      hide Offset, Dirty, Overwritten;
      var selfErr := NoErr;
      var toWrite := p;
      if |p| > n { toWrite, selfErr := p[..n], NoSpace; }
      assert toWrite == p[..Min(|p|, n)];
      written, err := w.Write(toWrite);
      if written != 0 { n := n - written; }
      if err.NoErr? { err := selfErr; }
    }

    method Close() returns (err: Err)
      requires w.Within(|w.image|)
      modifies w`buf, w.w, w.w.device, w.w.device.file
      ensures w.w.device.file.closed.Some? && (err.NoErr? ==> w.w.device.file.closed == Some(NoErr))
      ensures w.Within(|w.image|)
      ensures old(w.Valid()) && err.NoErr? ==>
                && Written(w.base, w.image, w.w.device.file, w.frameSize, w.w.totalFrames, w.w.dirtyFrames)
                && w.w.device.file.writes == w.firstWrite + w.w.dirtyFrames
                && w.w.device.file.syncs
                   == w.firstSync + Syncs(w.base, w.image, w.frameSize, w.w.totalFrames, w.w.device.interval)
      ensures w.w.device.file.healthy ==> err.NoErr?
    {
      hide Offset, Dirty, Overwritten;
      err := w.Close();
    }
  }

  // ---------------------------------------------------------- the whole chain

  const CHUNK_MIN: nat := 1024 * 1024

  function Doubled(sector: nat, n: nat): nat { sector * Backoff.Pow2(n) }

  lemma DoubledNext(sector: nat, n: nat)
    ensures Doubled(sector, 0) == sector && Doubled(sector, n + 1) == Doubled(sector, n) * 2
  {
    Backoff.DoubledUnit(sector, n);
  }

  /** The sector size doubled until a chunk holds at least 1 MiB, and no further. */
  method ChunkSize(sector: nat) returns (chunk: nat)
    requires sector > 0
    ensures chunk == Doubled(sector, Backoff.Doublings(sector, CHUNK_MIN))
    ensures chunk >= 1024 * 1024 == CHUNK_MIN && chunk >= sector && (chunk == sector || chunk < 2 * CHUNK_MIN)
  {
    hide Doubled, Backoff.Pow2;
    chunk := sector;
    ghost var n: nat := 0;
    DoubledNext(sector, 0);
    while chunk < CHUNK_MIN
      invariant chunk > 0 && chunk == Doubled(sector, n)
      invariant chunk >= sector && (chunk == sector || chunk < 2 * CHUNK_MIN)
      invariant n + Backoff.Doublings(chunk, CHUNK_MIN) == Backoff.Doublings(sector, CHUNK_MIN)
      decreases CHUNK_MIN - chunk
    {
      DoubledNext(sector, n);
      chunk, n := chunk * 2, n + 1;
    }
  }

  function Concat(chunks: seq<seq<Byte>>): seq<Byte> {
    if chunks == [] then [] else Concat(chunks[..|chunks| - 1]) + chunks[|chunks| - 1]
  }

  lemma ConcatNone()
    ensures Concat([]) == []
  {
  }

  lemma ConcatNext(chunks: seq<seq<Byte>>, i: nat)
    requires i < |chunks|
    ensures Concat(chunks[..i + 1]) == Concat(chunks[..i]) + chunks[i]
  {
    assert chunks[..i + 1][..i] == chunks[..i];
  }

  lemma {:induction false} ConcatMonotone(chunks: seq<seq<Byte>>, i: nat)
    requires i <= |chunks|
    ensures Concat(chunks[..i]) <= Concat(chunks)
    decreases |chunks| - i
  {
    if i < |chunks| {
      ConcatMonotone(chunks, i + 1);
      ConcatNext(chunks, i);
    } else {
      assert chunks[..i] == chunks;
    }
  }

  /** What reaches the device of an image that may be longer than announced. */
  function Kept(image: seq<Byte>, size: nat): seq<Byte> { image[..Min(|image|, size)] }

  lemma KeptStep(done: seq<Byte>, piece: seq<Byte>, image: seq<Byte>, size: nat)
    requires done + piece <= image && |done| <= size
    ensures var part := piece[..Min(|piece|, size - |done|)];
            && done <= Kept(image, size) && done + part <= Kept(image, size)
            && (|piece| > size - |done| ==> done + part == Kept(image, size) && |image| > size)
  {
  }

  lemma KeptAll(image: seq<Byte>, size: nat)
    requires |image| <= size
    ensures Kept(image, size) == image
  {
  }

  /** io.Copy: writes piece after piece until the first error. */
  method Copy(w: LimitedWriteCloser, chunks: seq<seq<Byte>>) returns (err: Err)
    requires w.w.Valid() && w.w.image == [] && w.n <= |w.w.base|
    modifies w, w.w, w.w.w, w.w.w.device, w.w.w.device.file
    ensures w.w.image <= Kept(Concat(chunks), old(w.n)) && w.w.Within(|w.w.image|)
    ensures err.NoErr? || err.NoSpace? ==> w.w.Valid() && w.w.image == Kept(Concat(chunks), old(w.n))
    ensures err.NoErr? ==> |Concat(chunks)| <= old(w.n)
    ensures w.w.w.device.file.healthy ==> (if |Concat(chunks)| <= old(w.n) then err.NoErr? else err.NoSpace?)
  {
    hide Offset, Dirty, Overwritten, Concat, Kept;
    ConcatNone();
    assert chunks[..0] == [];
    ghost var size := w.n;
    KeptStep([], [], Concat(chunks), size);
    UntouchedYet(w.w.base, w.w.image, w.w.w.device.file.pos);
    var i := 0;
    while i < |chunks|
      invariant i <= |chunks| && w.w.Valid() && w.w.Within(|w.w.image|)
      invariant w.w.image == Concat(chunks[..i]) && |w.w.image| + w.n == old(w.n)
    {
      ConcatMonotone(chunks, i + 1);
      ConcatNext(chunks, i);
      KeptStep(Concat(chunks[..i]), chunks[i], Concat(chunks), size);
      var written;
      written, err := w.Write(chunks[i]);
      if !err.NoErr? { return; }
      i := i + 1;
    }
    assert chunks[..i] == chunks;
    KeptAll(Concat(chunks), size);
    err := NoErr;
  }

  /**
   Open, io.Copy and Close, as StoreUpdate calls them (installer/dual_rootfs_device.go).
   The image arrives in arbitrary pieces, and reading it may fail after the last of them.
   */
  method StoreUpdate(dev: File, pieces: seq<seq<Byte>>, readFails: bool, size: nat, sector: nat)
    returns (err: Err, chunk: nat, totalFrames: nat, dirtyFrames: nat)
    requires dev.pos == 0 && sector > 0
    modifies dev
    ensures |dev.content| == old(|dev.content|)
    // an image announced as larger than the device is refused
    ensures |old(dev.content)| < size ==>
              err.NoSpace? && dev.content == old(dev.content) && chunk == totalFrames == dirtyFrames == 0
    // and any other leaves the device closed, with the error of closing it told if there is no other
    ensures |old(dev.content)| >= size ==> dev.closed.Some? && (err.NoErr? ==> dev.closed == Some(NoErr))
    // whatever fails, only the part of the device that the image covers is ever written
    ensures |old(dev.content)| >= size ==>
              dev.content[|Kept(Concat(pieces), size)|..] == old(dev.content)[|Kept(Concat(pieces), size)|..]
    // no error means that the whole image is there
    ensures err.NoErr? ==>
              && !readFails && |Concat(pieces)| <= size
                && chunk == Doubled(sector, Backoff.Doublings(sector, CHUNK_MIN))
              && Written(old(dev.content), Concat(pieces), dev, chunk, totalFrames, dirtyFrames)
              && dev.writes == old(dev.writes) + dirtyFrames
              && dev.syncs == old(dev.syncs) + Syncs(old(dev.content), Concat(pieces), chunk, totalFrames, sector)
    // and a device that does not fail always gets what fits
    ensures |old(dev.content)| >= size && dev.healthy ==>
              && Written(old(dev.content), Kept(Concat(pieces), size), dev, chunk, totalFrames, dirtyFrames)
              && dev.writes == old(dev.writes) + dirtyFrames
              && dev.syncs == old(dev.syncs)
                   + Syncs(old(dev.content), Kept(Concat(pieces), size), chunk, totalFrames, sector)
              && (err.NoErr? <==> !readFails && |Concat(pieces)| <= size)
              && (err.NoSpace? <==> |Concat(pieces)| > size)
  {
    hide Overwritten, Dirty, Offset, Concat, Doubled;
    if |dev.content| < size { return NoSpace, 0, 0, 0; }
    ghost var base := dev.content;
    chunk := ChunkSize(sector);
    var fw := new FlushingWriter(dev, sector);
    var odw := new OptimizedBlockDeviceWriter(fw);
    var bfw := new BlockFrameWriter(odw, chunk);
    var w := new LimitedWriteCloser(bfw, size);
    err := Copy(w, pieces);
    if err.NoErr? { KeptAll(Concat(pieces), size); }
    if err.NoErr? && readFails { err := IoError; }
    var closeErr := w.Close();
    if err.NoErr? { err := closeErr; }
    TailKept(base, dev.content, |bfw.image|, |Kept(Concat(pieces), size)|);
    totalFrames, dirtyFrames := odw.totalFrames, odw.dirtyFrames;
  }
}
