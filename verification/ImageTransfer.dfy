/**
 The transfer of a problem's image from the master to a worker: the sending loop of
 comms/volpe/master.go and the receiving loop of comms/volpe/worker.go.
 */
module ImageTransfer {
  import opened Int32
  import opened Placement
  import opened Protocol

  type byte = x: int | 0 <= x < 256

  const CHUNK := 512

  /** The largest size that whole chunks can reach without overflowing the receiver's `int32` counter. */
  const LIMIT := 0x8000_0000 - CHUNK

  datatype ImageStreamObject =
    | Details(problemID: string, imageSizeBytes: int32, migrationSize: int32, migrationFrequency: int32)
    | Chunk(data: seq<byte>)

  function Zeros(): (z: seq<byte>)
    ensures |z| == CHUNK
  {
    seq(CHUNK, _ => 0)
  }

  // ---- What is sent -------------------------------------------------------------------

  /** Bytes read by the first `i` reads. */
  function Offset(sizes: seq<nat>, i: nat): nat
    requires i <= |sizes|
  {
    if i == 0 then 0 else Offset(sizes, i - 1) + sizes[i - 1]
  }

  /** Reads of a file of `size` bytes, each of at least one byte and at most a buffer. */
  ghost predicate SizesOk(sizes: seq<nat>, size: nat) {
    (forall i :: 0 <= i < |sizes| ==> 0 < sizes[i] <= CHUNK) && Offset(sizes, |sizes|) == size
  }

  ghost predicate AllButLastFull(sizes: seq<nat>) {
    forall i :: 0 <= i < |sizes| - 1 ==> sizes[i] == CHUNK
  }

  lemma {:induction false} OffsetGrows(sizes: seq<nat>, i: nat, j: nat)
    requires i <= j <= |sizes|
    ensures Offset(sizes, i) <= Offset(sizes, j)
    decreases j
  {
    if i == j {
    } else {
      OffsetGrows(sizes, i, j - 1);
    }
  }

  /** The send buffer after `i` reads: a short read leaves the end of the buffer as it was. */
  function Buffer(file: seq<byte>, sizes: seq<nat>, i: nat): (b: seq<byte>)
    requires SizesOk(sizes, |file|) && i <= |sizes|
    ensures |b| == CHUNK
  {
    if i == 0 then Zeros()
    else
      OffsetGrows(sizes, i, |sizes|);
      file[Offset(sizes, i - 1)..Offset(sizes, i)] + Buffer(file, sizes, i - 1)[sizes[i - 1]..]
  }

  /** The whole buffer is sent after every read. */
  function Chunks(file: seq<byte>, sizes: seq<nat>): (wire: seq<ImageStreamObject>)
    requires SizesOk(sizes, |file|)
    ensures |wire| == |sizes|
  {
    seq(|sizes|, i requires 0 <= i < |sizes| => Chunk(Buffer(file, sizes, i + 1)))
  }

  method Read(file: seq<byte>, done: nat, buf: array<byte>, n: nat)
    requires done + n <= |file| && n <= buf.Length
    modifies buf
    ensures buf[..] == file[done..done + n] + old(buf[..])[n..]
  {
    for j := 0 to n
      invariant buf[..j] == file[done..done + j]
      invariant buf[j..] == old(buf[..])[j..]
    {
      buf[j] := file[done + j];
      assert buf[..j + 1] == buf[..j] + [buf[j]];
    }
    assert buf[..] == buf[..n] + buf[n..];
  }

  lemma {:induction false} NextBuffer(file: seq<byte>, sizes: seq<nat>, i: nat)
    requires SizesOk(sizes, |file|) && i < |sizes|
    ensures sizes[i] <= CHUNK && Offset(sizes, i + 1) == Offset(sizes, i) + sizes[i] <= |file|
    ensures Buffer(file, sizes, i + 1) ==
            file[Offset(sizes, i)..Offset(sizes, i) + sizes[i]] + Buffer(file, sizes, i)[sizes[i]..]
  {
    OffsetGrows(sizes, i + 1, |sizes|);
  }

  lemma {:induction false} NextChunk(file: seq<byte>, sizes: seq<nat>, i: nat)
    requires SizesOk(sizes, |file|) && i < |sizes|
    ensures Chunks(file, sizes)[..i + 1] == Chunks(file, sizes)[..i] + [Chunk(Buffer(file, sizes, i + 1))]
  {
    hide Buffer, SizesOk;
    assert Chunks(file, sizes)[i] == Chunk(Buffer(file, sizes, i + 1));
  }

  /** The sending loop, with its one buffer. */
  method SendChunks(file: seq<byte>, sizes: seq<nat>) returns (wire: seq<ImageStreamObject>)
    requires SizesOk(sizes, |file|)
    ensures wire == Chunks(file, sizes)
    ensures |wire| == |sizes| && forall i :: 0 <= i < |wire| ==> wire[i].Chunk? && |wire[i].data| == 512
  {
    hide Buffer, Chunks, Offset;
    var done := 0;
    var buf := new byte[CHUNK](_ => 0);
    wire := [];
    var i := 0;
    NothingSent(file, sizes, buf[..]);
    while done < |file|
      invariant i <= |sizes| && done == Offset(sizes, i)
      invariant buf[..] == Buffer(file, sizes, i)
      invariant wire == Chunks(file, sizes)[..i]
      invariant |wire| == i && forall k :: 0 <= k < i ==> wire[k].Chunk? && |wire[k].data| == 512
      decreases |sizes| - i
    {
      if i < |sizes| {
        NextBuffer(file, sizes, i);
        NextChunk(file, sizes, i);
      }
      var bytes := sizes[i];
      Read(file, done, buf, bytes);
      wire := wire + [Chunk(buf[..])];
      done := done + bytes;
      i := i + 1;
    }
    AllRead(sizes, i, |file|);
  }

  lemma {:induction false} NothingSent(file: seq<byte>, sizes: seq<nat>, buf: seq<byte>)
    requires SizesOk(sizes, |file|) && |buf| == CHUNK && forall j :: 0 <= j < CHUNK ==> buf[j] == 0
    ensures Offset(sizes, 0) == 0 && buf == Buffer(file, sizes, 0) && Chunks(file, sizes)[..0] == []
  {
  }

  /**
   `GetProblemData` of the master. The stream stays empty for an image that cannot be opened, without
   an error; `sizes` are the byte counts that the reads of the file return.
   */
  method SendProblemData(problemID: string, meta: Option<Problem>, image: Option<seq<byte>>, sizes: seq<nat>)
    returns (wire: seq<ImageStreamObject>, ok: bool)
    requires image.Some? ==> SizesOk(sizes, |image.value|)
    ensures ok <==> meta.Some?
    ensures meta.None? || image.None? ==> wire == []
    ensures meta.Some? && image.Some? ==>
              wire == [Details(problemID, Wrap(|image.value|), meta.value.migrationSize,
                meta.value.migrationFrequency)] +
                      Chunks(image.value, sizes)
  {
    if meta.None? {
      return [], false;
    }
    if image.None? {
      return [], true;
    }
    var chunks := SendChunks(image.value, sizes);
    wire := [Details(problemID, Wrap(|image.value|), meta.value.migrationSize, meta.value.migrationFrequency)] + chunks;
    ok := true;
  }

  lemma {:induction false} AllRead(sizes: seq<nat>, i: nat, size: nat)
    requires SizesOk(sizes, size) && i <= |sizes| && Offset(sizes, i) >= size
    ensures i == |sizes|
  {
    if i < |sizes| { OffsetGrows(sizes, i + 1, |sizes|); }
  }

  // ---- What is received ---------------------------------------------------------------

  datatype Outcome = Outcome(ok: bool, data: seq<byte>)

  /** The receiving loop: what it appends to the file, and whether it ends without an error. */
  function Receive(wire: seq<ImageStreamObject>, size: int32, done: int32): Outcome {
    if done >= size then Outcome(true, [])
    else if wire == [] || !wire[0].Chunk? then Outcome(false, [])
    else
      var rest := Receive(wire[1..], size, Wrap(done + Wrap(|wire[0].data|)));
      Outcome(rest.ok, wire[0].data + rest.data)
  }

  lemma {:induction false} ReceiveOne(wire: seq<ImageStreamObject>, next: nat, size: int32, done: int32)
    requires next < |wire| && wire[next].Chunk? && done < size
    ensures Receive(wire[next..], size, done) ==
            var rest := Receive(wire[next + 1..], size, Wrap(done + Wrap(|wire[next].data|)));
            Outcome(rest.ok, wire[next].data + rest.data)
  {
    assert wire[next..][0] == wire[next] && wire[next..][1..] == wire[next + 1..];
  }

  lemma {:induction false} ReceiveEnds(wire: seq<ImageStreamObject>, size: int32, done: int32)
    ensures done >= size ==> Receive(wire, size, done) == Outcome(true, [])
    ensures done < size && (wire == [] || !wire[0].Chunk?) ==> Receive(wire, size, done) == Outcome(false, [])
  {
  }

  /** What was received before `next`, followed by what the loop still does. */
  ghost predicate Continues(wire: seq<ImageStreamObject>, size: int32, next: nat, done: int32, file: seq<byte>)
    requires next <= |wire|
  {
    && Receive(wire, size, 0).ok == Receive(wire[next..], size, done).ok
    && Receive(wire, size, 0).data == file + Receive(wire[next..], size, done).data
  }

  lemma {:induction false} ContinuesOne(wire: seq<ImageStreamObject>, size: int32, next: nat, done: int32,
                                        file: seq<byte>)
    requires next < |wire| && wire[next].Chunk? && done < size && Continues(wire, size, next, done, file)
    ensures Continues(wire, size, next + 1, Wrap(done + Wrap(|wire[next].data|)), file + wire[next].data)
  {
    hide Receive, Wrap;
    ReceiveOne(wire, next, size, done);
  }

  lemma {:induction false} ContinuesEnds(wire: seq<ImageStreamObject>, size: int32, next: nat, done: int32,
                                         file: seq<byte>, ok: bool)
    requires next <= |wire| && Continues(wire, size, next, done, file)
    requires if done >= size then ok else !ok && (next == |wire| || !wire[next].Chunk?)
    ensures Receive(wire, size, 0) == Outcome(ok, file)
  {
    ReceiveEnds(wire[next..], size, done);
  }

  /** The receiving loop, with its `int32` counter. */
  method ReceiveChunks(wire: seq<ImageStreamObject>, fileSizeBytes: int32) returns (ok: bool, file: seq<byte>)
    ensures Receive(wire, fileSizeBytes, 0) == Outcome(ok, file)
  {
    assert Continues(wire, fileSizeBytes, 0, 0, []) by { assert wire[0..] == wire; }
    hide *;
    file := [];
    var doneBytes: int32 := 0;
    var next := 0;
    while doneBytes < fileSizeBytes
      invariant next <= |wire| && Continues(wire, fileSizeBytes, next, doneBytes, file)
      decreases |wire| - next
    {
      if next == |wire| || !wire[next].Chunk? {
        ContinuesEnds(wire, fileSizeBytes, next, doneBytes, file, false);
        return false, file;
      }
      var data := wire[next].data;
      ContinuesOne(wire, fileSizeBytes, next, doneBytes, file);
      file := file + data;
      doneBytes := Wrap(doneBytes + Wrap(|data|));
      next := next + 1;
    }
    ContinuesEnds(wire, fileSizeBytes, next, doneBytes, file, true);
    ok := true;
  }

  /** `GetProblemData` of the worker: the metadata if the transfer succeeds, and the bytes in the image file. */
  method ReceiveProblemData(problemID: string, wire: seq<ImageStreamObject>, meta: Problem)
    returns (fetched: Option<Problem>, file: seq<byte>)
    ensures wire == [] || wire[0].Chunk? ==> fetched == None && file == []
    ensures wire != [] && wire[0].Details? ==>
              var outcome := Receive(wire[1..], wire[0].imageSizeBytes, 0);
              && file == outcome.data
              && fetched == if outcome.ok
                            then Some(meta.(id := problemID, imagePath := "./" + problemID + ".tar",
                                            migrationFrequency := wire[0].migrationFrequency,
                                              migrationSize := wire[0].migrationSize))
                            else None
  {
    if wire == [] || !wire[0].Details? {
      return None, [];
    }
    var details := wire[0];
    var ok: bool;
    ok, file := ReceiveChunks(wire[1..], details.imageSizeBytes);
    fetched := None;
    if ok {
      fetched := Some(meta.(id := problemID, imagePath := "./" + problemID + ".tar",
                            migrationFrequency := details.migrationFrequency, migrationSize := details.migrationSize));
    }
  }

  // ---- Full reads ---------------------------------------------------------------------

  /** The bytes of the first `n` chunks. */
  function Flat(file: seq<byte>, sizes: seq<nat>, n: nat): (data: seq<byte>)
    requires SizesOk(sizes, |file|) && n <= |sizes|
    ensures |data| == CHUNK * n
  {
    if n == 0 then [] else Flat(file, sizes, n - 1) + Buffer(file, sizes, n)
  }

  lemma {:induction false} FlatStep(file: seq<byte>, sizes: seq<nat>, n: nat)
    requires SizesOk(sizes, |file|) && n < |sizes|
    ensures Flat(file, sizes, n + 1) == Flat(file, sizes, n) + Buffer(file, sizes, n + 1)
    ensures |Flat(file, sizes, n)| == CHUNK * n && |Buffer(file, sizes, n + 1)| == CHUNK
  {
  }

  lemma {:induction false} FlatAt(file: seq<byte>, sizes: seq<nat>, n: nat, i: nat, j: nat)
    requires SizesOk(sizes, |file|) && i < n <= |sizes| && j < CHUNK
    ensures CHUNK * i + j < CHUNK * n
    ensures Flat(file, sizes, n)[CHUNK * i + j] == Buffer(file, sizes, i + 1)[j]
    decreases n
  {
    hide *;
    var last := n - 1;
    FlatStep(file, sizes, last);
    if i == last {
    } else {
      FlatAt(file, sizes, last, i, j);
    }
  }

  /** What the worker makes of the chunks of `file`. */
  function Transfer(file: seq<byte>, sizes: seq<nat>): Outcome
    requires SizesOk(sizes, |file|)
  {
    Receive(Chunks(file, sizes), Wrap(|file|), 0)
  }

  /** The number of chunks that the receiver waits for. */
  function Needed(size: int): (k: nat)
    ensures size > 0 ==> CHUNK * (k - 1) < size <= CHUNK * k
    ensures size <= 0 ==> k == 0
  {
    if size <= 0 then 0 else (size + CHUNK - 1) / CHUNK
  }

  lemma {:induction false} ReceiveNext(file: seq<byte>, sizes: seq<nat>, size: int32, k: nat, done: int32)
    requires SizesOk(sizes, |file|) && k < |sizes| && done < size
    ensures Receive(Chunks(file, sizes)[k..], size, done) ==
            var rest := Receive(Chunks(file, sizes)[k + 1..], size, Wrap(done + CHUNK));
            Outcome(rest.ok, Buffer(file, sizes, k + 1) + rest.data)
  {
    hide Receive, Wrap, Buffer, SizesOk;
    var wire := Chunks(file, sizes);
    ReceiveOne(wire, k, size, done);
    SmallWrap(CHUNK);
  }

  lemma {:induction false} SmallWrap(x: int)
    requires -0x8000_0000 <= x <= INT32_MAX
    ensures Wrap(x) == x
  {
  }

  /** From its chunk `k` on, the receiver takes chunks up to `Needed(size)`. */
  lemma {:induction false} ReceiveRest(file: seq<byte>, sizes: seq<nat>, size: int32, k: nat)
    requires SizesOk(sizes, |file|) && size <= LIMIT && k <= Needed(size) <= |sizes|
    ensures CHUNK * k <= INT32_MAX
    ensures var r := Receive(Chunks(file, sizes)[k..], size, CHUNK * k);
            r.ok && Flat(file, sizes, k) + r.data == Flat(file, sizes, Needed(size))
    decreases Needed(size) - k
  {
    hide Receive, Wrap, Buffer, SizesOk, Flat, Chunks, Needed;
    if k < Needed(size) {
      ReceiveNext(file, sizes, size, k, CHUNK * k);
      SmallWrap(CHUNK * (k + 1));
      ReceiveRest(file, sizes, size, k + 1);
      FlatStep(file, sizes, k);
      var r := Receive(Chunks(file, sizes)[k + 1..], size, CHUNK * (k + 1));
      assert Flat(file, sizes, k) + (Buffer(file, sizes, k + 1) + r.data) == Flat(file, sizes, k + 1) + r.data;
    } else {
      ReceiveEnds(Chunks(file, sizes)[k..], size, CHUNK * k);
      assert Flat(file, sizes, k) + [] == Flat(file, sizes, k);
    }
  }

  /**
   With fewer chunks than it waits for, or with a size that no whole chunk reaches, the receiver takes all the
   chunks and fails.
   */
  lemma {:induction false} ReceiveFails(file: seq<byte>, sizes: seq<nat>, size: int32, k: nat)
    requires SizesOk(sizes, |file|) && k <= |sizes|
    requires size > LIMIT || Needed(size) > |sizes|
    ensures var r := Receive(Chunks(file, sizes)[k..], size, Wrap(CHUNK * k));
            !r.ok && Flat(file, sizes, k) + r.data == Flat(file, sizes, |sizes|)
    decreases |sizes| - k
  {
    hide Receive, Buffer, SizesOk, Chunks, Flat;
    WrappedBelow(size, k, |sizes|);
    if k < |sizes| {
      ReceiveNext(file, sizes, size, k, Wrap(CHUNK * k));
      WrapAdd(CHUNK * k, CHUNK);
      ReceiveFails(file, sizes, size, k + 1);
      FlatStep(file, sizes, k);
      var r := Receive(Chunks(file, sizes)[k + 1..], size, Wrap(CHUNK * (k + 1)));
      assert Flat(file, sizes, k) + (Buffer(file, sizes, k + 1) + r.data) == Flat(file, sizes, k + 1) + r.data;
    } else {
      ReceiveEnds(Chunks(file, sizes)[k..], size, Wrap(CHUNK * k));
      assert Flat(file, sizes, k) + [] == Flat(file, sizes, k);
    }
  }

  lemma {:induction false} WrappedBelow(size: int32, k: nat, n: nat)
    requires k <= n && (size > LIMIT || Needed(size) > n)
    ensures Wrap(CHUNK * k) < size
  {
  }

  lemma {:induction false} OffsetBounds(sizes: seq<nat>, i: nat)
    requires i <= |sizes| && forall j :: 0 <= j < |sizes| ==> 0 < sizes[j] <= CHUNK
    ensures i <= Offset(sizes, i) <= CHUNK * i
    ensures AllButLastFull(sizes) && i < |sizes| ==> Offset(sizes, i) == CHUNK * i
    decreases i
  {
    if i == 0 {
    } else {
      OffsetBounds(sizes, i - 1);
    }
  }

  /** Every read yields a chunk, so there are at least as many as the receiver waits for. */
  lemma {:induction false} EnoughChunks(sizes: seq<nat>, size: nat)
    requires SizesOk(sizes, size)
    ensures Needed(size) <= |sizes| && Needed(Wrap(size)) <= |sizes|
    ensures AllButLastFull(sizes) ==> |sizes| == Needed(size)
  {
    OffsetBounds(sizes, |sizes|);
    if sizes != [] { OffsetBounds(sizes, |sizes| - 1); }
  }

  /** When the receiver succeeds, and what it then has, for every file and every pattern of reads. */
  lemma {:induction false} TransferOutcome(file: seq<byte>, sizes: seq<nat>)
    requires SizesOk(sizes, |file|)
    ensures Transfer(file, sizes).ok <==> Wrap(|file|) <= 0x7FFF_FE00
    ensures Needed(Wrap(|file|)) <= |sizes|
    ensures Transfer(file, sizes).data ==
            Flat(file, sizes, if Wrap(|file|) <= 0x7FFF_FE00 then Needed(Wrap(|file|)) else |sizes|)
  {
    hide Flat, Receive, Buffer, SizesOk;
    EnoughChunks(sizes, |file|);
    assert Chunks(file, sizes)[0..] == Chunks(file, sizes);
    NoChunks(file, sizes);
    if Wrap(|file|) <= LIMIT {
      ReceiveRest(file, sizes, Wrap(|file|), 0);
    } else {
      ReceiveFails(file, sizes, Wrap(|file|), 0);
    }
  }

  lemma {:induction false} NoChunks(file: seq<byte>, sizes: seq<nat>)
    requires SizesOk(sizes, |file|)
    ensures Flat(file, sizes, 0) == []
  {
  }

  /** Byte `j` of chunk `i`: from this read, or what an earlier one left. */
  lemma {:induction false} BufferAt(file: seq<byte>, sizes: seq<nat>, i: nat, j: nat)
    requires SizesOk(sizes, |file|) && i < |sizes| && j < CHUNK
    ensures Offset(sizes, i + 1) == Offset(sizes, i) + sizes[i] <= |file|
    ensures Buffer(file, sizes, i + 1)[j] ==
            if j < sizes[i] then file[Offset(sizes, i) + j] else Buffer(file, sizes, i)[j]
  {
    NextBuffer(file, sizes, i);
  }

  /** Byte `j` of chunk `i` after full reads. */
  lemma {:induction false} FullBufferAt(file: seq<byte>, sizes: seq<nat>, i: nat, j: nat)
    requires SizesOk(sizes, |file|) && AllButLastFull(sizes) && i < |sizes| && j < CHUNK
    ensures CHUNK * i + sizes[i] <= |file|
    ensures sizes[i] < CHUNK ==> CHUNK * i + sizes[i] == |file|
    ensures Buffer(file, sizes, i + 1)[j] ==
            if j < sizes[i] then file[CHUNK * i + j] else if i == 0 then 0 else file[CHUNK * (i - 1) + j]
  {
    FullSizes(file, sizes, i);
    hide *;
    BufferAt(file, sizes, i, j);
    if i == 0 {
      NothingRead(file, sizes, j);
    } else {
      FullSizes(file, sizes, i - 1);
      BufferAt(file, sizes, i - 1, j);
    }
  }

  lemma {:induction false} FullSizes(file: seq<byte>, sizes: seq<nat>, i: nat)
    requires SizesOk(sizes, |file|) && AllButLastFull(sizes) && i < |sizes|
    ensures sizes[i] <= CHUNK && Offset(sizes, i) == CHUNK * i
    ensures i < |sizes| - 1 ==> sizes[i] == CHUNK
    ensures i == |sizes| - 1 ==> CHUNK * i + sizes[i] == |file|
  {
    OffsetBounds(sizes, i);
  }

  lemma {:induction false} NothingRead(file: seq<byte>, sizes: seq<nat>, j: nat)
    requires SizesOk(sizes, |file|) && j < CHUNK
    ensures Buffer(file, sizes, 0)[j] == 0
  {
  }

  /**
   What arrives after full reads: the file, in whole chunks, and after it the end of the buffer, which
   holds the bytes of the chunk before, or zeros if there was none.
   */
  lemma {:induction false} FullReadsArrive(file: seq<byte>, sizes: seq<nat>, i: nat, j: nat)
    requires SizesOk(sizes, |file|) && AllButLastFull(sizes) && i < |sizes| && j < 512
    ensures 512 * i + j < |Flat(file, sizes, |sizes|)| && (i > 0 ==> 512 * (i - 1) + j < |file|)
    ensures Flat(file, sizes, |sizes|)[512 * i + j] ==
            if 512 * i + j < |file| then file[512 * i + j] else if i == 0 then 0 else file[512 * (i - 1) + j]
  {
    hide Flat, Buffer, SizesOk, Offset, AllButLastFull;
    FlatAt(file, sizes, |sizes|, i, j);
    FullBufferAt(file, sizes, i, j);
  }

  /** Full chunks carry the file byte by byte. */
  lemma {:induction false} FlatIsFile(file: seq<byte>, sizes: seq<nat>, k: nat)
    requires SizesOk(sizes, |file|) && AllButLastFull(sizes) && k < |sizes|
    ensures Offset(sizes, k) <= |file| && Flat(file, sizes, k) == file[..Offset(sizes, k)]
    decreases k
  {
    if k == 0 {
    } else {
      var i := k - 1;
      FullSizes(file, sizes, i);
      hide *;
      FlatIsFile(file, sizes, i);
      NextBuffer(file, sizes, i);
      FlatStep(file, sizes, i);
      assert Buffer(file, sizes, i)[sizes[i]..] == [];
    }
  }

  lemma {:induction false} PrefixSplit(file: seq<byte>, k: nat, tail: seq<byte>)
    requires k <= |file|
    ensures file <= file[..k] + (file[k..|file|] + tail)
  {
    assert file[..k] + (file[k..|file|] + tail) == file + tail;
  }

  lemma {:induction false} FullReadsPrefix(file: seq<byte>, sizes: seq<nat>)
    requires SizesOk(sizes, |file|) && AllButLastFull(sizes)
    ensures file <= Flat(file, sizes, |sizes|)
  {
    hide Buffer, Flat;
    if sizes == [] {
      assert file == [];
    } else {
      LastPrefix(file, sizes, |sizes| - 1);
    }
  }

  lemma {:induction false} LastPrefix(file: seq<byte>, sizes: seq<nat>, last: nat)
    requires SizesOk(sizes, |file|) && AllButLastFull(sizes) && last + 1 == |sizes|
    ensures file <= Flat(file, sizes, last + 1)
  {
    FullSizes(file, sizes, last);
    hide *;
    FlatIsFile(file, sizes, last);
    NextBuffer(file, sizes, last);
    FlatStep(file, sizes, last);
    PrefixSplit(file, Offset(sizes, last), Buffer(file, sizes, last)[sizes[last]..]);
  }

  /** A file that arrives wrong after a short read: a single 1, at the first byte that the read left behind. */
  function Probe(size: nat, p: nat): (file: seq<byte>)
    ensures |file| == size
  {
    seq(size, i => if i == p then 1 else 0)
  }

  lemma {:induction false} ProbeBuffer(size: nat, p: nat, sizes: seq<nat>, i: nat, j: nat)
    requires SizesOk(sizes, size) && i <= |sizes| && j < CHUNK && Offset(sizes, i) <= p
    ensures Buffer(Probe(size, p), sizes, i)[j] == 0
    decreases i
  {
    if i == 0 {
    } else {
      var last := i - 1;
      ProbeBuffer(size, p, sizes, last, j);
      BufferAt(Probe(size, p), sizes, last, j);
    }
  }

  lemma {:induction false} ShortReadCorrupts(size: nat, sizes: seq<nat>, i: nat) returns (file: seq<byte>)
    requires SizesOk(sizes, size) && size <= 0x7FFF_FE00 && i < |sizes| - 1
    requires sizes[i] < 512 && forall k :: 0 <= k < i ==> sizes[k] == 512
    ensures |file| == size && !(file <= Transfer(file, sizes).data)
  {
    OffsetWhenFull(sizes, i);
    OffsetStep(sizes, i);
    OffsetStep(sizes, i + 1);
    OffsetGrows(sizes, i + 2, |sizes|);
    hide *;
    var r := sizes[i];
    file := Probe(size, CHUNK * i + r);
    var p := CHUNK * i + r;
    ProbeAt(size, p);
    LeftBehind(size, sizes, i, p, file);
    NoPrefix(file, Transfer(file, sizes).data, p);
  }

  lemma {:induction false} ProbeAt(size: nat, p: nat)
    requires p < size
    ensures Probe(size, p)[p] == 1
  {
  }

  lemma {:induction false} NoPrefix(a: seq<byte>, b: seq<byte>, p: nat)
    requires p < |a| && p < |b| && a[p] != b[p]
    ensures !(a <= b)
  {
  }

  /** The byte that a short read leaves behind does not arrive. */
  lemma {:induction false} LeftBehind(size: nat, sizes: seq<nat>, i: nat, p: nat, file: seq<byte>)
    requires SizesOk(sizes, size) && size <= LIMIT && i < |sizes| && sizes[i] < CHUNK
    requires Offset(sizes, i) == CHUNK * i && p == CHUNK * i + sizes[i] < size && file == Probe(size, p)
    ensures p < |Transfer(file, sizes).data| && Transfer(file, sizes).data[p] == 0
  {
    SmallWrap(size);
    hide *;
    TransferOutcome(file, sizes);
    EnoughForByte(size, i, sizes[i]);
    FlatAt(file, sizes, Needed(size), i, sizes[i]);
    FlatLength(file, sizes, Needed(size));
    ProbeBehind(size, p, sizes, i);
  }

  lemma {:induction false} ProbeBehind(size: nat, p: nat, sizes: seq<nat>, i: nat)
    requires SizesOk(sizes, size) && i < |sizes| && sizes[i] < CHUNK && p == Offset(sizes, i) + sizes[i]
    ensures Buffer(Probe(size, p), sizes, i + 1)[sizes[i]] == 0
  {
    hide *;
    BufferAt(Probe(size, p), sizes, i, sizes[i]);
    ProbeBuffer(size, p, sizes, i, sizes[i]);
  }

  lemma {:induction false} FlatLength(file: seq<byte>, sizes: seq<nat>, n: nat)
    requires SizesOk(sizes, |file|) && n <= |sizes|
    ensures |Flat(file, sizes, n)| == CHUNK * n
  {
  }

  lemma {:induction false} EnoughForByte(size: nat, i: nat, j: nat)
    requires CHUNK * i + j < size
    ensures i < Needed(size)
  {
  }

  lemma {:induction false} OffsetStep(sizes: seq<nat>, i: nat)
    requires i < |sizes|
    ensures Offset(sizes, i + 1) == Offset(sizes, i) + sizes[i]
  {
  }

  lemma {:induction false} OffsetWhenFull(sizes: seq<nat>, i: nat)
    requires i <= |sizes| && forall k :: 0 <= k < i ==> sizes[k] == CHUNK
    ensures Offset(sizes, i) == CHUNK * i
    decreases i
  {
    if i == 0 {
    } else {
      OffsetWhenFull(sizes, i - 1);
    }
  }

  lemma {:induction false} FirstShort(sizes: seq<nat>, n: nat) returns (i: nat)
    requires n <= |sizes| && exists k :: 0 <= k < n && sizes[k] != CHUNK
    ensures i < n && sizes[i] != CHUNK && forall k :: 0 <= k < i ==> sizes[k] == CHUNK
    decreases n
  {
    if k :| 0 <= k < n - 1 && sizes[k] != CHUNK {
      i := FirstShort(sizes, n - 1);
    } else {
      i := n - 1;
    }
  }

  /** The transfer succeeds with the file at the start of what arrives. */
  ghost predicate PrefixArrives(file: seq<byte>, sizes: seq<nat>)
    requires SizesOk(sizes, |file|)
  {
    Transfer(file, sizes).ok && file <= Transfer(file, sizes).data
  }

  /** A file above the limit never arrives: the receiver fails, or stops too early. */
  lemma {:induction false} TooLarge(file: seq<byte>, sizes: seq<nat>)
    requires SizesOk(sizes, |file|) && |file| > 0x7FFF_FE00
    ensures !PrefixArrives(file, sizes)
    ensures |file| <= 0x7FFF_FFFF ==> !Transfer(file, sizes).ok
  {
    TransferOutcome(file, sizes);
  }

  /**
   Exactly when every file of a size is at the start of what arrives: the size is at most 2^31 - 512, and
   every read but the last fills the buffer.
   */
  lemma {:induction false} PrefixArrivesIff(size: nat, sizes: seq<nat>)
    requires (forall i :: 0 <= i < |sizes| ==> 0 < sizes[i] <= 512) && Offset(sizes, |sizes|) == size
    ensures (forall file: seq<byte> :: |file| == size ==> PrefixArrives(file, sizes)) <==>
            size <= 0x7FFF_FE00 && forall i :: 0 <= i < |sizes| - 1 ==> sizes[i] == 512
  {
    if size > LIMIT {
      TooLarge(Probe(size, 0), sizes);
    } else if !AllButLastFull(sizes) {
      var i := FirstShort(sizes, |sizes| - 1);
      var file := ShortReadCorrupts(size, sizes, i);
      assert !PrefixArrives(file, sizes);
    } else {
      forall file: seq<byte> | |file| == size
        ensures PrefixArrives(file, sizes)
      {
        FullReadsStop(file, sizes);
      }
    }
  }

  /** With full reads both loops stop after the same chunks, and the received file is whole chunks. */
  lemma {:induction false} FullReadsStop(file: seq<byte>, sizes: seq<nat>)
    requires SizesOk(sizes, |file|) && AllButLastFull(sizes) && |file| <= 0x7FFF_FE00
    ensures PrefixArrives(file, sizes)
    ensures |sizes| == (|file| + 511) / 512 && |Transfer(file, sizes).data| == 512 * |sizes|
    ensures Transfer(file, sizes).data == Flat(file, sizes, |sizes|)
  {
    EnoughChunks(sizes, |file|);
    TransferOutcome(file, sizes);
    SmallWrap(|file|);
    FullReadsPrefix(file, sizes);
  }

  /**
   Exactly when every file of a size arrives byte by byte and with nothing after it: the size is also a
   whole number of chunks.
   */
  lemma {:induction false} TransferIsExact(size: nat, sizes: seq<nat>)
    requires (forall i :: 0 <= i < |sizes| ==> 0 < sizes[i] <= 512) && Offset(sizes, |sizes|) == size
    ensures (forall file: seq<byte> :: |file| == size ==> Transfer(file, sizes) == Outcome(true, file)) <==>
            size <= 0x7FFF_FE00 && (forall i :: 0 <= i < |sizes| - 1 ==> sizes[i] == 512) && size % 512 == 0
  {
    hide Transfer;
    if size <= LIMIT && AllButLastFull(sizes) {
      forall file: seq<byte> | |file| == size
        ensures Transfer(file, sizes) == Outcome(true, file) <==> size % CHUNK == 0
      {
        ExactIfWhole(file, sizes);
      }
      assert |Probe(size, 0)| == size;
    } else {
      PrefixArrivesIff(size, sizes);
      var file: seq<byte> :| |file| == size && !PrefixArrives(file, sizes);
      assert Transfer(file, sizes) != Outcome(true, file);
    }
  }

  lemma {:induction false} ExactIfWhole(file: seq<byte>, sizes: seq<nat>)
    requires SizesOk(sizes, |file|) && AllButLastFull(sizes) && |file| <= LIMIT
    ensures Transfer(file, sizes) == Outcome(true, file) <==> |file| % CHUNK == 0
  {
    hide Transfer, SizesOk;
    FullReadsStop(file, sizes);
    SamePrefix(file, Transfer(file, sizes).data);
    WholeChunks(|file|);
  }

  lemma {:induction false} SamePrefix(a: seq<byte>, b: seq<byte>)
    requires a <= b
    ensures a == b <==> |a| == |b|
  {
  }

  lemma {:induction false} WholeChunks(size: nat)
    ensures size == CHUNK * Needed(size) <==> size % CHUNK == 0
  {
  }

  /** Both ends together. */
  method FetchProblem(problemID: string, meta: Option<Problem>, image: Option<seq<byte>>, sizes: seq<nat>,
                      blank: Problem)
    returns (fetched: Option<Problem>, file: seq<byte>)
    requires image.Some? ==> SizesOk(sizes, |image.value|)
    ensures meta.None? || image.None? ==> fetched == None && file == []
    ensures meta.Some? && image.Some? ==> (fetched.Some? <==> Wrap(|image.value|) <= 0x7FFF_FE00)
    ensures fetched.Some? ==> meta.Some?
    ensures fetched.None? && meta.Some? && image.Some? ==> |file| == 512 * |sizes|
    ensures fetched.Some? ==>
              fetched.value == blank.(id := problemID, imagePath := "./" + problemID + ".tar",
                                      migrationFrequency := meta.value.migrationFrequency,
                                      migrationSize := meta.value.migrationSize)
    ensures meta.Some? && image.Some? && |image.value| <= 0x7FFF_FE00 &&
            (forall i :: 0 <= i < |sizes| - 1 ==> sizes[i] == 512) ==>
              fetched.Some? && image.value <= file && |file| == 512 * ((|image.value| + 511) / 512)
  {
    hide Chunks, Receive, Flat, Needed, SizesOk, Wrap;
    var wire, ok := SendProblemData(problemID, meta, image, sizes);
    fetched, file := ReceiveProblemData(problemID, wire, blank);
    if meta.Some? && image.Some? {
      assert wire[1..] == Chunks(image.value, sizes);
      TransferOutcome(image.value, sizes);
      FlatLength(image.value, sizes, |sizes|);
      if |image.value| <= 0x7FFF_FE00 && AllButLastFull(sizes) {
        FullReadsStop(image.value, sizes);
      }
    }
  }
}
