/**
 * The local file as the multipart path reads it, and what the slicing loop of
 * GenericS3Dao.uploadParts makes of it: the sequence of chunks it reads.
 */
module ChunkedFile {
  import opened Wrappers
  import opened S3Api

  /** GenericS3Dao.PART_SIZE: 5 MiB, the length of the read buffer. */
  const PART_SIZE: nat := 5 * 1024 * 1024

  /**
   * A file and the behaviour of the stream over it, as oracle inputs: whether it
   * can be opened, how many bytes the k-th `read` call asks for (`readSizes[k]`,
   * a full buffer once the list runs out), which `read` call, if any, throws
   * IOException, and whether closing the stream throws.
   */
  datatype FileModel = FileModel(
    content: seq<Byte>,
    opens: bool,
    readSizes: seq<nat>,
    failingRead: Option<nat>,
    closeFails: bool)

  /** What one call of `InputStream.read(byte[])` does. */
  datatype ReadResult = Filled(count: nat) | EndOfStream | ReadIOException

  function Min(a: int, b: int): int {
    if a <= b then a else b
  }

  /**
   * Read call number `call`, at offset `pos`, into a buffer of `capacity` bytes:
   * it delivers at least one and at most `min(capacity, remaining)` bytes, or
   * signals the end of the stream (-1) exactly when nothing remains, unless the
   * oracle makes this call throw.
   */
  function ReadAt(f: FileModel, pos: nat, call: nat, capacity: nat): (r: ReadResult)
    requires pos <= |f.content|
    requires capacity > 0
    ensures r.ReadIOException? <==> f.failingRead == Some(call)
    ensures r.EndOfStream? <==> pos == |f.content| && f.failingRead != Some(call)
    ensures r.Filled? ==> 1 <= r.count <= capacity && pos + r.count <= |f.content|
  {
    if f.failingRead == Some(call) then ReadIOException
    else if pos == |f.content| then EndOfStream
    else
      var wanted := if call < |f.readSizes| then f.readSizes[call] else capacity;
      var most := Min(capacity, |f.content| - pos);
      Filled(if wanted < 1 then 1 else Min(wanted, most))
  }

  /** The chunks the loop reads and whether it ended in an IOException. */
  datatype Slicing = Slicing(chunks: seq<seq<Byte>>, ioException: bool)

  /** The slicing loop from offset `pos` and read call `call` on. */
  function Slice(f: FileModel, pos: nat, call: nat): Slicing
    requires pos <= |f.content|
    decreases |f.content| - pos
  {
    match ReadAt(f, pos, call, PART_SIZE)
    case ReadIOException => Slicing([], true)
    case EndOfStream => Slicing([], false)
    case Filled(n) =>
      var rest := Slice(f, pos + n, call + 1);
      Slicing([f.content[pos..pos + n]] + rest.chunks, rest.ioException)
  }

  /** One turn of the loop: a read that fills `n` bytes contributes the next chunk. */
  lemma SliceStep(f: FileModel, pos: nat, call: nat, n: nat)
    requires pos <= |f.content|
    requires ReadAt(f, pos, call, PART_SIZE) == Filled(n)
    ensures pos + n <= |f.content|
    ensures Slice(f, pos, call).chunks == [f.content[pos..pos + n]] + Slice(f, pos + n, call + 1).chunks
    ensures Slice(f, pos, call).ioException == Slice(f, pos + n, call + 1).ioException
  {
  }

  /**
   * The whole try-with-resources block: opening the stream, the loop, and
   * closing the stream; a failure to open or to close is an IOException too.
   */
  function SliceFile(f: FileModel): Slicing {
    if !f.opens then Slicing([], true)
    else
      var s := Slice(f, 0, 0);
      Slicing(s.chunks, s.ioException || f.closeFails)
  }

  function Flatten(chunks: seq<seq<Byte>>): seq<Byte> {
    if chunks == [] then [] else chunks[0] + Flatten(chunks[1..])
  }

  ghost predicate ChunkSizesInRange(chunks: seq<seq<Byte>>) {
    forall i :: 0 <= i < |chunks| ==> 1 <= |chunks[i]| <= PART_SIZE
  }

  /** Every chunk holds between 1 and PART_SIZE bytes. */
  lemma {:induction false} SliceChunkSizes(f: FileModel, pos: nat, call: nat)
    requires pos <= |f.content|
    ensures ChunkSizesInRange(Slice(f, pos, call).chunks)
    decreases |f.content| - pos
  {
    match ReadAt(f, pos, call, PART_SIZE)
    case ReadIOException =>
    case EndOfStream =>
    case Filled(n) =>
      SliceChunkSizes(f, pos + n, call + 1);
      var rest := Slice(f, pos + n, call + 1);
      var chunks := Slice(f, pos, call).chunks;
      assert chunks == [f.content[pos..pos + n]] + rest.chunks;
      forall i | 1 <= i < |chunks|
        ensures 1 <= |chunks[i]| <= PART_SIZE
      {
        assert chunks[i] == rest.chunks[i - 1];
        assert 1 <= |rest.chunks[i - 1]| <= PART_SIZE;
      }
  }

  /**
   * The loop stops on an IOException exactly when the read right after the last
   * chunk is the failing one; otherwise it stopped at -1.
   */
  lemma {:induction false} SliceStopsAtFailingRead(f: FileModel, pos: nat, call: nat)
    requires pos <= |f.content|
    ensures var s := Slice(f, pos, call);
      s.ioException <==> f.failingRead == Some(call + |s.chunks|)
    decreases |f.content| - pos
  {
    match ReadAt(f, pos, call, PART_SIZE)
    case ReadIOException =>
    case EndOfStream =>
    case Filled(n) =>
      SliceStopsAtFailingRead(f, pos + n, call + 1);
  }

  lemma FlattenCons(head: seq<Byte>, rest: seq<seq<Byte>>)
    ensures Flatten([head] + rest) == head + Flatten(rest)
  {
    assert ([head] + rest)[1..] == rest;
  }

  lemma PrefixAfterSameHead(head: seq<Byte>, a: seq<Byte>, b: seq<Byte>)
    requires a <= b
    ensures head + a <= head + b
  {
    assert (head + b)[..|head + a|] == head + a;
  }

  /**
   * The chunks, concatenated in read order, are a prefix of the bytes from `pos`
   * on, and all of them when no read threw.
   */
  lemma {:induction false} SliceConcat(f: FileModel, pos: nat, call: nat)
    requires pos <= |f.content|
    ensures var s := Slice(f, pos, call);
      && Flatten(s.chunks) <= f.content[pos..]
      && (!s.ioException ==> Flatten(s.chunks) == f.content[pos..])
    decreases |f.content| - pos
  {
    match ReadAt(f, pos, call, PART_SIZE)
    case ReadIOException =>
    case EndOfStream =>
    case Filled(n) =>
      SliceStep(f, pos, call, n);
      SliceConcat(f, pos + n, call + 1);
      var head, rest := f.content[pos..pos + n], Slice(f, pos + n, call + 1).chunks;
      FlattenCons(head, rest);
      assert f.content[pos..] == head + f.content[pos + n..];
      PrefixAfterSameHead(head, Flatten(rest), f.content[pos + n..]);
  }

  /**
   * What the file-level loop yields: chunks of 1 to PART_SIZE bytes whose
   * concatenation is a prefix of the file, the whole file when no IOException
   * occurred; an empty file read without error yields no chunk.
   */
  lemma SliceFileCoversFile(f: FileModel)
    ensures var s := SliceFile(f);
      && ChunkSizesInRange(s.chunks)
      && Flatten(s.chunks) <= f.content
      && (!s.ioException ==> Flatten(s.chunks) == f.content)
      && (|f.content| == 0 ==> s.chunks == [])
  {
    if f.opens {
      SliceChunkSizes(f, 0, 0);
      SliceConcat(f, 0, 0);
      assert f.content[0..] == f.content;
    }
  }

  /** Every read call the oracle answers asks for a full buffer. */
  ghost predicate ReadsFillBuffer(f: FileModel) {
    forall k :: 0 <= k < |f.readSizes| ==> f.readSizes[k] >= PART_SIZE
  }

  lemma CeilStep(rest: int)
    requires rest > PART_SIZE
    ensures (rest + PART_SIZE - 1) / PART_SIZE == 1 + (rest - PART_SIZE + PART_SIZE - 1) / PART_SIZE
    ensures rest % PART_SIZE == (rest - PART_SIZE) % PART_SIZE
  {
  }

  lemma CeilLast(rest: int)
    requires 0 < rest <= PART_SIZE
    ensures (rest + PART_SIZE - 1) / PART_SIZE == 1
    ensures rest == if rest % PART_SIZE == 0 then PART_SIZE else rest % PART_SIZE
  {
  }

  /**
   * The chunks of `rest` bytes cut into full parts: ceil(rest / PART_SIZE) of
   * them, every one but the last of exactly PART_SIZE bytes, and the last of
   * rest mod PART_SIZE bytes (PART_SIZE when that is 0).
   */
  ghost predicate FullParts(chunks: seq<seq<Byte>>, rest: nat) {
    && |chunks| == (rest + PART_SIZE - 1) / PART_SIZE
    && (forall i :: 0 <= i < |chunks| - 1 ==> |chunks[i]| == PART_SIZE)
    && (rest > 0 ==> |chunks[|chunks| - 1]| == if rest % PART_SIZE == 0 then PART_SIZE else rest % PART_SIZE)
  }

  lemma FullPartsLast(chunk: seq<Byte>, rest: nat)
    requires 0 < rest <= PART_SIZE && |chunk| == rest
    ensures FullParts([chunk], rest)
  {
    CeilLast(rest);
  }

  lemma FullPartsCons(chunk: seq<Byte>, tail: seq<seq<Byte>>, rest: nat)
    requires rest > PART_SIZE && |chunk| == PART_SIZE
    requires FullParts(tail, rest - PART_SIZE)
    ensures FullParts([chunk] + tail, rest)
  {
    CeilStep(rest);
    var chunks := [chunk] + tail;
    assert |tail| > 0;
    forall i | 0 <= i < |chunks| - 1
      ensures |chunks[i]| == PART_SIZE
    {
      if i > 0 {
        assert chunks[i] == tail[i - 1];
      }
    }
    assert chunks[|chunks| - 1] == tail[|tail| - 1];
  }

  /** When reads fill the buffer, the loop from `pos` cuts the rest of the file into full parts. */
  lemma {:induction false} FullReadsSlice(f: FileModel, pos: nat, call: nat)
    requires pos <= |f.content|
    requires ReadsFillBuffer(f)
    ensures !Slice(f, pos, call).ioException ==> FullParts(Slice(f, pos, call).chunks, |f.content| - pos)
    decreases |f.content| - pos
  {
    var rest := |f.content| - pos;
    match ReadAt(f, pos, call, PART_SIZE)
    case ReadIOException =>
    case EndOfStream =>
    case Filled(n) =>
      assert n == Min(PART_SIZE, rest);
      SliceStep(f, pos, call, n);
      var tail := Slice(f, pos + n, call + 1);
      if !tail.ioException {
        FullReadsSlice(f, pos + n, call + 1);
        if rest <= PART_SIZE {
          assert ReadAt(f, pos + n, call + 1, PART_SIZE).EndOfStream?;
          assert tail.chunks == [];
          FullPartsLast(f.content[pos..pos + n], rest);
        } else {
          FullPartsCons(f.content[pos..pos + n], tail.chunks, rest);
        }
      }
  }

  /**
   * The count and sizes of the parts of a whole file read without error, when
   * every read fills the buffer.
   */
  lemma PartCountUnderFullReads(f: FileModel)
    requires ReadsFillBuffer(f)
    ensures var s := SliceFile(f); var size := |f.content|;
      !s.ioException ==>
        && |s.chunks| == (size + PART_SIZE - 1) / PART_SIZE
        && (forall i :: 0 <= i < |s.chunks| - 1 ==> |s.chunks[i]| == PART_SIZE)
        && (size > 0 ==> |s.chunks[|s.chunks| - 1]| == if size % PART_SIZE == 0 then PART_SIZE else size % PART_SIZE)
  {
    if f.opens {
      FullReadsSlice(f, 0, 0);
    }
  }

  /** A 12 MiB file read in full buffers gives parts of 5, 5 and 2 MiB. */
  lemma TwelveMiBFile(f: FileModel)
    requires |f.content| == 12 * 1024 * 1024
    requires ReadsFillBuffer(f) && f.opens && f.failingRead == None && !f.closeFails
    ensures var s := SliceFile(f);
      && !s.ioException
      && |s.chunks| == 3
      && |s.chunks[0]| == |s.chunks[1]| == PART_SIZE
      && |s.chunks[2]| == 2 * 1024 * 1024
  {
    SliceStopsAtFailingRead(f, 0, 0);
    PartCountUnderFullReads(f);
  }

  /**
   * `FileInputStream` over a FileModel: the offset reached and the number of
   * read calls made so far.
   */
  class InputStream {
    const file: FileModel
    var pos: nat
    var calls: nat

    ghost predicate Valid()
      reads this
    {
      pos <= |file.content|
    }

    constructor Open(f: FileModel)
      requires f.opens
      ensures Valid() && file == f && pos == 0 && calls == 0
    {
      file := f;
      pos := 0;
      calls := 0;
    }

    /**
     * `read(buffer)`: copies the next bytes into a prefix of the buffer and
     * returns their number, or returns -1 at the end of the stream; or throws.
     * Buffer cells past the bytes read are left as they were, and neither the
     * buffer nor the offset changes at the end of the stream or on a throw.
     */
    method Read(buffer: array<Byte>) returns (bytesRead: int, ioException: bool)
      requires Valid() && buffer.Length > 0
      modifies this, buffer
      ensures Valid() && calls == old(calls) + 1
      ensures var r := ReadAt(file, old(pos), old(calls), buffer.Length);
        && ioException == r.ReadIOException?
        && (r.EndOfStream? ==> bytesRead == -1 && pos == old(pos))
        && (r.Filled? ==>
              && bytesRead == r.count
              && pos == old(pos) + r.count
              && buffer[..bytesRead] == file.content[old(pos)..pos]
              && buffer[r.count..] == old(buffer[r.count..]))
        && (!r.Filled? ==> buffer[..] == old(buffer[..]) && pos == old(pos))
    {
      var r := ReadAt(file, pos, calls, buffer.Length);
      calls := calls + 1;
      match r
      case ReadIOException =>
        bytesRead, ioException := 0, true;
      case EndOfStream =>
        bytesRead, ioException := -1, false;
      case Filled(n) =>
        forall k | 0 <= k < n {
          buffer[k] := file.content[pos + k];
        }
        bytesRead, ioException := n, false;
        pos := pos + n;
    }
  }
}
