/**
 * GenericS3Dao: the single-request upload path and the multipart upload path
 * (initiate, slice and dispatch parts, join and complete), with the object store
 * given as an oracle and every request the DAO issues returned as a trace.
 */
module GenericS3Dao {
  import opened Wrappers
  import opened S3Api
  import opened ChunkedFile
  import opened Manifest

  /**
   * The `thenApply`/`exceptionally` pair on a part's future: a response becomes a
   * CompletedPart carrying the request's part number and the response's ETag, a
   * failure becomes null.
   */
  function Settle(request: UploadPartRequest, response: Option<string>): Option<CompletedPart> {
    match response
    case Some(eTag) => Some(CompletedPart(request.partNumber, eTag))
    case None => None
  }

  /** The futures of the dispatched parts, each already settled by the store. */
  function Settled(uploadPart: UploadPartRequest -> Option<string>, sent: seq<UploadPartRequest>): seq<Option<CompletedPart>> {
    seq(|sent|, i requires 0 <= i < |sent| => Settle(sent[i], uploadPart(sent[i])))
  }

  /**
   * `sent` are the first |sent| parts of `chunks`: the i-th carries the bucket,
   * key and upload id given, part number i + 1 and the i-th chunk as payload.
   */
  ghost predicate DispatchedInOrder(sent: seq<UploadPartRequest>, chunks: seq<seq<Byte>>,
                                    bucketName: string, objectKey: string, uploadId: string)
  {
    && |sent| <= |chunks|
    && forall i :: 0 <= i < |sent| ==> sent[i] == UploadPartRequest(bucketName, objectKey, uploadId, i + 1, chunks[i])
  }

  lemma DispatchNext(sent: seq<UploadPartRequest>, chunks: seq<seq<Byte>>,
                     bucketName: string, objectKey: string, uploadId: string)
    requires DispatchedInOrder(sent, chunks, bucketName, objectKey, uploadId)
    requires |sent| < |chunks|
    ensures DispatchedInOrder(sent + [UploadPartRequest(bucketName, objectKey, uploadId, |sent| + 1, chunks[|sent|])],
                              chunks, bucketName, objectKey, uploadId)
  {
  }

  lemma SettledAppend(uploadPart: UploadPartRequest -> Option<string>, sent: seq<UploadPartRequest>, request: UploadPartRequest)
    ensures Settled(uploadPart, sent + [request]) == Settled(uploadPart, sent) + [Settle(request, uploadPart(request))]
  {
  }

  /**
   * One turn of the slicing loop, seen from the whole list of chunks: when the
   * chunks still ahead are those from `pos` on and the read fills `n` bytes,
   * chunk `k` is those bytes and the chunks ahead move on by one.
   */
  lemma ChunkConsumed(file: FileModel, all: seq<seq<Byte>>, k: nat, pos: nat, call: nat, n: nat, pos': nat, call': nat)
    requires pos <= |file.content| && k <= |all|
    requires all[k..] == Slice(file, pos, call).chunks
    requires ReadAt(file, pos, call, PART_SIZE) == Filled(n)
    requires pos' == pos + n && call' == call + 1
    ensures pos' <= |file.content| && k < |all|
    ensures all[k] == file.content[pos..pos']
    ensures all[k + 1..] == Slice(file, pos', call').chunks
    ensures Slice(file, pos, call).ioException == Slice(file, pos', call').ioException
  {
    SliceStep(file, pos, call, n);
    assert all[k..][0] == all[k];
    assert all[k + 1..] == all[k..][1..];
  }

  /** Part numbers 1, 2, 3, ... in dispatch order. */
  ghost predicate NumberedFromOne(sent: seq<UploadPartRequest>) {
    forall i :: 0 <= i < |sent| ==> sent[i].partNumber == i + 1
  }

  /**
   * For parts numbered from one in dispatch order, the kept results are already
   * strictly ascending, numbered within 1..|sent|.
   */
  lemma {:induction false} KeptOfSettledAscending(uploadPart: UploadPartRequest -> Option<string>, sent: seq<UploadPartRequest>)
    requires NumberedFromOne(sent)
    ensures var kept := Kept(Settled(uploadPart, sent));
      && StrictlyAscending(kept)
      && NumbersWithin(kept, |sent|)
  {
    if sent != [] {
      var init, last := sent[..|sent| - 1], sent[|sent| - 1];
      assert sent == init + [last];
      KeptOfSettledAscending(uploadPart, init);
      SettledAppend(uploadPart, init, last);
      var before := Kept(Settled(uploadPart, init));
      var future := Settle(last, uploadPart(last));
      KeptAppend(Settled(uploadPart, init), future);
      var kept := Kept(Settled(uploadPart, sent));
      assert kept == before + (if future.Some? then [future.value] else []);
      forall i, j | 0 <= i < j < |kept|
        ensures kept[i].partNumber < kept[j].partNumber
      {
        assert kept[i] == before[i];
        if j < |before| {
          assert kept[j] == before[j];
        }
      }
      forall i | 0 <= i < |kept|
        ensures 1 <= kept[i].partNumber <= |sent|
      {
        if i < |before| {
          assert kept[i] == before[i];
        }
      }
    }
  }

  /** Every part number of `parts` lies in 1..n. */
  ghost predicate NumbersWithin(parts: seq<CompletedPart>, n: int) {
    forall i :: 0 <= i < |parts| ==> 1 <= parts[i].partNumber <= n
  }

  /**
   * For parts numbered from one in dispatch order, a part is kept exactly when
   * the store acknowledged the part with that number, with that ETag.
   */
  lemma KeptOfSettledMembers(uploadPart: UploadPartRequest -> Option<string>, sent: seq<UploadPartRequest>)
    requires NumberedFromOne(sent)
    ensures forall p :: p in Kept(Settled(uploadPart, sent)) <==>
      1 <= p.partNumber <= |sent| && uploadPart(sent[p.partNumber - 1]) == Some(p.eTag)
  {
    var results := Settled(uploadPart, sent);
    forall p: CompletedPart
      ensures Some(p) in results <==> 1 <= p.partNumber <= |sent| && uploadPart(sent[p.partNumber - 1]) == Some(p.eTag)
    {
      if Some(p) in results {
        var i :| 0 <= i < |results| && results[i] == Some(p);
        assert p.partNumber == i + 1;
      }
      if 1 <= p.partNumber <= |sent| && uploadPart(sent[p.partNumber - 1]) == Some(p.eTag) {
        assert results[p.partNumber - 1] == Some(p);
      }
    }
  }

  /**
   * The manifest built from the futures of parts numbered from one: sorting
   * changes nothing, it is strictly ascending, and it lists a part exactly when
   * the store acknowledged that part, with the store's ETag; failed parts are
   * dropped.
   */
  lemma ManifestOfUploadedParts(uploadPart: UploadPartRequest -> Option<string>, sent: seq<UploadPartRequest>)
    requires NumberedFromOne(sent)
    ensures var results := Settled(uploadPart, sent); var m := ManifestOf(results);
      && m == Kept(results)
      && StrictlyAscending(m)
      && (forall p :: p in m <==> 1 <= p.partNumber <= |sent| && uploadPart(sent[p.partNumber - 1]) == Some(p.eTag))
  {
    KeptOfSettledAscending(uploadPart, sent);
    KeptOfSettledMembers(uploadPart, sent);
    SortKeepsSorted(Kept(Settled(uploadPart, sent)));
  }

  /**
   * When every part upload succeeds, the manifest is (1, ETag 1), ..., (N, ETag N)
   * for the N parts dispatched.
   */
  lemma AllPartsUploaded(uploadPart: UploadPartRequest -> Option<string>, sent: seq<UploadPartRequest>)
    requires NumberedFromOne(sent)
    requires forall i :: 0 <= i < |sent| ==> uploadPart(sent[i]).Some?
    ensures var m := ManifestOf(Settled(uploadPart, sent));
      && |m| == |sent|
      && forall i :: 0 <= i < |m| ==> m[i] == CompletedPart(i + 1, uploadPart(sent[i]).value)
  {
    var results := Settled(uploadPart, sent);
    ManifestOfUploadedParts(uploadPart, sent);
    KeptAllPresent(results);
  }

  /** The payloads of the dispatched parts, in dispatch order. */
  function Payloads(sent: seq<UploadPartRequest>): seq<seq<Byte>> {
    seq(|sent|, i requires 0 <= i < |sent| => sent[i].payload)
  }

  /**
   * The parts uploadParts dispatches for a file: numbered 1..N in read order,
   * each payload 1 to PART_SIZE bytes long, and their payloads concatenated in
   * part-number order are a prefix of the file, the whole file when no
   * IOException occurred.
   */
  lemma DispatchedPartsRebuildFile(file: FileModel, sent: seq<UploadPartRequest>,
                                   bucketName: string, objectKey: string, uploadId: string)
    requires |sent| == |SliceFile(file).chunks|
    requires DispatchedInOrder(sent, SliceFile(file).chunks, bucketName, objectKey, uploadId)
    ensures NumberedFromOne(sent)
    ensures forall i :: 0 <= i < |sent| ==> 1 <= |sent[i].payload| <= PART_SIZE
    ensures Flatten(Payloads(sent)) <= file.content
    ensures !SliceFile(file).ioException ==> Flatten(Payloads(sent)) == file.content
  {
    SliceFileCoversFile(file);
    assert Payloads(sent) == SliceFile(file).chunks;
  }

  /**
   * initiateMultipartUpload: the upload id the store issues; null when the
   * request itself throws S3Exception; any other exception propagates
   * (`propagated`), including a store error that `join()` wraps in a
   * CompletionException.
   */
  method InitiateMultipartUpload(createMultipartUpload: CreateMultipartUploadRequest -> Initiation, bucketName: string, objectKey: string)
    returns (request: CreateMultipartUploadRequest, uploadId: Option<string>, propagated: bool)
    ensures request == CreateMultipartUploadRequest(bucketName, objectKey)
    ensures propagated <==> createMultipartUpload(request).OtherException?
    ensures uploadId.Some? <==> createMultipartUpload(request).UploadIdIssued?
    ensures uploadId.Some? ==> uploadId.value == createMultipartUpload(request).uploadId
  {
    request := CreateMultipartUploadRequest(bucketName, objectKey);
    match createMultipartUpload(request)
    case UploadIdIssued(id) =>
      uploadId, propagated := Some(id), false;
    case S3Exception =>
      uploadId, propagated := None, false;
    case OtherException =>
      uploadId, propagated := None, true;
  }

  /**
   * uploadParts: reads the file in chunks of at most PART_SIZE bytes and
   * dispatches one part per chunk, numbered 1, 2, 3, ... in read order, under the
   * given bucket, key and upload id. `sent` lists every part request dispatched
   * (also those dispatched before an IOException); `futures` is the list of
   * settled part results, or None (null) when opening, reading or closing the
   * file threw IOException.
   */
  method UploadParts(uploadPart: UploadPartRequest -> Option<string>, file: FileModel,
                     bucketName: string, objectKey: string, uploadId: string)
    returns (sent: seq<UploadPartRequest>, futures: Option<seq<Option<CompletedPart>>>)
    ensures var s := SliceFile(file);
      && |sent| == |s.chunks|
      && DispatchedInOrder(sent, s.chunks, bucketName, objectKey, uploadId)
      && (futures.None? <==> s.ioException)
      && (futures.Some? ==> futures.value == Settled(uploadPart, sent))
  {
    sent := [];
    if !file.opens {
      return sent, None;
    }
    var inputStream := new InputStream.Open(file);
    var buffer := new Byte[PART_SIZE];
    var pending: seq<Option<CompletedPart>> := [];
    var partNumber := 1;
    ghost var all := Slice(file, 0, 0);
    while true
      invariant inputStream.Valid() && inputStream.file == file
      invariant partNumber == |sent| + 1
      invariant DispatchedInOrder(sent, all.chunks, bucketName, objectKey, uploadId)
      invariant all.chunks[|sent|..] == Slice(file, inputStream.pos, inputStream.calls).chunks
      invariant all.ioException == Slice(file, inputStream.pos, inputStream.calls).ioException
      invariant pending == Settled(uploadPart, sent)
      decreases |file.content| - inputStream.pos
    {
      ghost var pos0, calls0 := inputStream.pos, inputStream.calls;
      ghost var read := ReadAt(file, pos0, calls0, PART_SIZE);
      var bytesRead, ioException := inputStream.Read(buffer);
      if ioException {
        return sent, None;
      }
      if bytesRead == -1 {
        break;
      }
      var partData := if bytesRead == PART_SIZE then buffer[..] else buffer[..bytesRead];
      var request := UploadPartRequest(bucketName, objectKey, uploadId, partNumber, partData);
      var future := Settle(request, uploadPart(request));
      partNumber := partNumber + 1;
      assert read == Filled(bytesRead);
      ghost var pos1, calls1 := inputStream.pos, inputStream.calls;
      assert pos1 == pos0 + bytesRead && calls1 == calls0 + 1;
      assert partData == file.content[pos0..pos1];
      ChunkConsumed(file, all.chunks, |sent|, pos0, calls0, bytesRead, pos1, calls1);
      DispatchNext(sent, all.chunks, bucketName, objectKey, uploadId);
      SettledAppend(uploadPart, sent, request);
      sent := sent + [request];
      pending := pending + [future];
    }
    if file.closeFails {
      return sent, None;
    }
    futures := Some(pending);
  }

  /** Whether "completed successfully" or the error message is printed. */
  datatype CompletionReport = CompletedSuccessfully | CompletionError

  /**
   * completeMultipartUpload: joins every future, keeps the non-null parts, sorts
   * them by part number and asks the store to complete with that manifest. The
   * success message is printed only if the store completes and `futures.get(0)`
   * finds at least one future; every exception ends in the error message.
   */
  method CompleteMultipartUpload(completeMultipartUpload: CompleteMultipartUploadRequest -> bool,
                                 bucketName: string, objectKey: string, uploadId: string,
                                 futures: seq<Option<CompletedPart>>)
    returns (request: CompleteMultipartUploadRequest, report: CompletionReport)
    ensures request.bucket == bucketName && request.key == objectKey && request.uploadId == uploadId
    ensures request.parts == ManifestOf(futures)
    ensures report == CompletedSuccessfully <==> completeMultipartUpload(request) && |futures| > 0
  {
    var completedParts: seq<CompletedPart> := [];
    for i := 0 to |futures|
      invariant completedParts == Kept(futures[..i])
    {
      var part := futures[i];
      if part.Some? {
        completedParts := completedParts + [part.value];
      }
      assert futures[..i + 1][..i] == futures[..i];
    }
    assert futures[..|futures|] == futures;
    completedParts := SortByPartNumber(completedParts);
    request := CompleteMultipartUploadRequest(bucketName, objectKey, uploadId, completedParts);
    if !completeMultipartUpload(request) {
      report := CompletionError;
    } else if |futures| == 0 {
      report := CompletionError;
    } else {
      report := CompletedSuccessfully;
    }
  }

  /** How mpFileOps ends. */
  datatype MpOutcome =
    | InitiationFailed
    | PartsFailed
    | Finished(report: CompletionReport)
    | ExceptionPropagated

  /** The trace entries of the dispatched part uploads. */
  function PartRequests(sent: seq<UploadPartRequest>): seq<Request> {
    seq(|sent|, i requires 0 <= i < |sent| => Part(sent[i]))
  }

  /**
   * mpFileOps: initiate, then slice and dispatch, then complete; it returns early
   * when initiation gives no upload id or slicing gives null. `trace` is every
   * request sent to the store, in order.
   */
  method MpFileOps(store: ObjectStore, file: FileModel, bucketName: string, s3DataPath: string, fileName: string)
    returns (trace: seq<Request>, outcome: MpOutcome)
    ensures var key := ObjectKey(s3DataPath, fileName);
      && |trace| >= 1
      && trace[0] == Create(CreateMultipartUploadRequest(bucketName, key))
      && (forall r :: r in trace ==> r.Bucket() == bucketName && r.Key() == key)
    ensures var initiation := store.createMultipartUpload(CreateMultipartUploadRequest(bucketName, ObjectKey(s3DataPath, fileName)));
      && (outcome == InitiationFailed <==> initiation.S3Exception?)
      && (outcome == ExceptionPropagated <==> initiation.OtherException?)
      && (!initiation.UploadIdIssued? ==> |trace| == 1)
    ensures var key := ObjectKey(s3DataPath, fileName);
      var initiation := store.createMultipartUpload(CreateMultipartUploadRequest(bucketName, key));
      var s := SliceFile(file);
      initiation.UploadIdIssued? ==>
        var parts := seq(|s.chunks|, i requires 0 <= i < |s.chunks| =>
                           UploadPartRequest(bucketName, key, initiation.uploadId, i + 1, s.chunks[i]));
        && (outcome == PartsFailed <==> s.ioException)
        && (s.ioException ==> trace == [trace[0]] + PartRequests(parts))
        && (!s.ioException ==>
              var completion := CompleteMultipartUploadRequest(bucketName, key, initiation.uploadId,
                                                               ManifestOf(Settled(store.uploadPart, parts)));
              && trace == [trace[0]] + PartRequests(parts) + [Complete(completion)]
              && outcome == Finished(if store.completeMultipartUpload(completion) && |parts| > 0
                                     then CompletedSuccessfully else CompletionError))
  {
    var key := ObjectKey(s3DataPath, fileName);
    var createRequest, uploadId, propagated := InitiateMultipartUpload(store.createMultipartUpload, bucketName, key);
    trace := [Create(createRequest)];
    if propagated {
      return trace, ExceptionPropagated;
    }
    if uploadId.None? {
      return trace, InitiationFailed;
    }
    var sent, futures := UploadParts(store.uploadPart, file, bucketName, key, uploadId.value);
    ghost var s := SliceFile(file);
    ghost var parts := seq(|s.chunks|, i requires 0 <= i < |s.chunks| =>
                             UploadPartRequest(bucketName, key, uploadId.value, i + 1, s.chunks[i]));
    assert sent == parts;
    trace := trace + PartRequests(sent);
    if futures.None? {
      return trace, PartsFailed;
    }
    var completeRequest, report := CompleteMultipartUpload(store.completeMultipartUpload, bucketName, key, uploadId.value, futures.value);
    trace := trace + [Complete(completeRequest)];
    outcome := Finished(report);
  }

  /**
   * genericFileOps: one PutObject request for the whole file, under the same
   * bucket and object key as the multipart path.
   */
  method GenericFileOps(bucketName: string, s3DataPath: string, fileName: string)
    returns (request: PutObjectRequest)
    ensures request.bucket == bucketName
    ensures request.key == ObjectKey(s3DataPath, fileName)
    ensures request.filePath == fileName
  {
    request := PutObjectRequest(bucketName, ObjectKey(s3DataPath, fileName), fileName);
  }
}
