# Multipart upload orchestration of GenericS3Dao, modelled in Dafny

The repository uploads a local file to an S3-compatible store (MinIO) in two
ways. `genericFileOps` sends one `PutObject` request. `mpFileOps` runs a
multipart upload:

1. `initiateMultipartUpload` asks the store for an upload id.
2. `uploadParts` reads the file in chunks of at most `PART_SIZE` (5 MiB). It
   dispatches one asynchronous part upload per chunk, numbered 1, 2, 3, ...
3. `completeMultipartUpload` joins the part futures and keeps the non-null
   results. It sorts them by part number and asks the store to complete the
   upload with that manifest.

The model covers that orchestration. The object store is an oracle. The
`ObjectStore` datatype gives, as inputs, how initiation settles, the ETag (or
failure) of each part upload, and whether completion succeeds. Each part's
future is modelled as already settled. The local file is a `FileModel`: its
bytes plus an oracle for the stream. The oracle says whether the file opens,
how many bytes each `read` call delivers (between 1 and
`min(PART_SIZE, remaining)`), which `read` call throws `IOException`, and
whether `close()` throws.

Modules:

- `S3Api` (`s3_api.dfy`): bytes, the request records, the object key, the
  store oracle, and `Request`, the trace of requests the DAO issues.
- `ChunkedFile` (`chunked_file.dfy`): `PART_SIZE`, one `read` call (`ReadAt`),
  the `InputStream` class, and `Slice`/`SliceFile`. These two functions give
  the chunks the slicing loop reads. The module's lemmas cover chunk sizes,
  concatenation, where the loop stops, and part counts when every read fills
  the buffer.
- `Manifest` (`manifest.dfy`): the join-and-filter loop's result (`Kept`).
  `List.sort` is modelled as a stable insertion sort (`SortByPartNumber`).
  The completion manifest is `ManifestOf`.
- `GenericS3Dao` (`generic_s3_dao.dfy`): the DAO's methods as imperative Dafny.
  `UploadParts` is a `while` loop over a fresh `InputStream` and a reused
  `array<Byte>` buffer. `CompleteMultipartUpload` is a `for` loop followed by
  the sort. `MpFileOps` returns every request it sent, in order. The lemmas
  relate the manifest to the parts dispatched.

The methods are proved against the specification functions (`SliceFile`,
`Settled`, `ManifestOf`), and the lemmas state what those functions
guarantee.

A stricter uploader would fail the whole upload when one part fails, and would
not call completion. This code does not: it turns a failed part into `null`
(GenericS3Dao.java:119-123), drops it (lines 139-144), and still calls
completion with the remaining parts. The model does the same:
`ManifestOfUploadedParts` says that exactly the acknowledged parts are listed.
The expected part count `ceil(F / P)` and last-part size `F mod P` hold only
when every read fills the buffer, which `InputStream.read` does not promise.
`PartCountUnderFullReads` states them under that assumption (`ReadsFillBuffer`).

Initiation catches only `S3Exception` (line 91). `join()` wraps a failure of
the future in a `CompletionException`, so that catch fires only when
`createMultipartUpload` throws before returning a future. A store rejection
delivered through the future escapes `mpFileOps`. The store oracle's
`Initiation` covers both paths (`S3Exception` and `OtherException`).

## Model

| member | source | states |
|---|---|---|
| `S3Api.ObjectKey` | src/main/java/com/apesconsole/file_reader/GenericS3Dao.java:63 | the key is the configured data path followed by the file name (prefix and suffix) |
| `S3Api.ObjectKeyInjective` | src/main/java/com/apesconsole/file_reader/GenericS3Dao.java:50 | under one data path, two file names give the same key only if they are equal |
| `ChunkedFile.ReadAt` | src/main/java/com/apesconsole/file_reader/GenericS3Dao.java:106 | a read throws exactly on the oracle's failing call; returns -1 exactly when nothing remains; otherwise delivers between 1 and min(buffer length, remaining) bytes |
| `ChunkedFile.SliceStep` | src/main/java/com/apesconsole/file_reader/GenericS3Dao.java:106-107 | a read of n bytes contributes the next n bytes of the file as the next chunk, and the loop goes on from there |
| `ChunkedFile.SliceChunkSizes` | src/main/java/com/apesconsole/file_reader/GenericS3Dao.java:103-107 | every chunk the loop reads holds between 1 and PART_SIZE bytes |
| `ChunkedFile.SliceStopsAtFailingRead` | src/main/java/com/apesconsole/file_reader/GenericS3Dao.java:106-130 | the loop ends in IOException exactly when the read after the last chunk is the failing one; otherwise it ended at -1 |
| `ChunkedFile.SliceConcat` | src/main/java/com/apesconsole/file_reader/GenericS3Dao.java:106-107 | the chunks concatenated in read order are a prefix of the rest of the file, and all of it when no read threw |
| `ChunkedFile.SliceFileCoversFile` | src/main/java/com/apesconsole/file_reader/GenericS3Dao.java:102-132 | over the whole file: chunks of 1..PART_SIZE bytes whose concatenation is a prefix of the file, the whole file without IOException; an empty file yields no chunk |
| `ChunkedFile.FullPartsLast` | src/main/java/com/apesconsole/file_reader/GenericS3Dao.java:33 | a single chunk of 1..PART_SIZE bytes is the full-part cut of that many bytes |
| `ChunkedFile.FullPartsCons` | src/main/java/com/apesconsole/file_reader/GenericS3Dao.java:33 | a full chunk in front of the cut of rest - PART_SIZE bytes is the cut of rest bytes |
| `ChunkedFile.FullReadsSlice` | src/main/java/com/apesconsole/file_reader/GenericS3Dao.java:103-107 | when reads fill the buffer, the loop cuts the remaining bytes into ceil(rest / PART_SIZE) parts, all full but the last |
| `ChunkedFile.PartCountUnderFullReads` | src/main/java/com/apesconsole/file_reader/GenericS3Dao.java:102-126 | when reads fill the buffer and no IOException occurs: ceil(F / PART_SIZE) parts, all but the last of PART_SIZE bytes, the last of F mod PART_SIZE bytes (PART_SIZE when that is 0) |
| `ChunkedFile.TwelveMiBFile` | src/main/java/com/apesconsole/file_reader/GenericS3Dao.java:33 | a 12 MiB file read in full buffers gives three parts of 5, 5 and 2 MiB |
| `ChunkedFile.InputStream.Open` | src/main/java/com/apesconsole/file_reader/GenericS3Dao.java:102 | a newly opened stream is at offset 0 with no read made |
| `ChunkedFile.InputStream.Read` | src/main/java/com/apesconsole/file_reader/GenericS3Dao.java:106 | the read does what `ReadAt` says; on a filled read the buffer prefix holds the next bytes of the file, the cells past them are unchanged, and the offset advances by their number; at -1 or on IOException neither the buffer nor the offset changes |
| `Manifest.Kept` | src/main/java/com/apesconsole/file_reader/GenericS3Dao.java:138-144 | a part is kept exactly when some future produced it (non-null); never more parts than futures |
| `Manifest.KeptAppend` | src/main/java/com/apesconsole/file_reader/GenericS3Dao.java:140-143 | joining one more future appends its part exactly when it is not null |
| `Manifest.KeptAllPresent` | src/main/java/com/apesconsole/file_reader/GenericS3Dao.java:139-144 | when no future is null, every part is kept, in order |
| `Manifest.InsertPermutes` | src/main/java/com/apesconsole/file_reader/GenericS3Dao.java:147 | one insertion step adds the part and loses nothing (multiset) |
| `Manifest.InsertAtLeast` | src/main/java/com/apesconsole/file_reader/GenericS3Dao.java:147 | insertion introduces no part number below a bound that the list and the part respect |
| `Manifest.SortedCons` | src/main/java/com/apesconsole/file_reader/GenericS3Dao.java:147 | a part no greater than every part of a sorted list, put in front, keeps the list sorted |
| `Manifest.SortedTail` | src/main/java/com/apesconsole/file_reader/GenericS3Dao.java:147 | the tail of a sorted list is sorted and bounded below by its head |
| `Manifest.InsertSorted` | src/main/java/com/apesconsole/file_reader/GenericS3Dao.java:147 | insertion into a list sorted by part number keeps it sorted |
| `Manifest.SortByPartNumber` | src/main/java/com/apesconsole/file_reader/GenericS3Dao.java:147 | the sort's result is ascending by part number and a permutation (same multiset) of its input |
| `Manifest.SortKeepsSorted` | src/main/java/com/apesconsole/file_reader/GenericS3Dao.java:147 | sorting a list already ascending by part number returns it unchanged |
| `Manifest.ManifestOf` | src/main/java/com/apesconsole/file_reader/GenericS3Dao.java:138-150 | the manifest is ascending by part number, a permutation of the non-null results, and lists a part exactly when a future produced it |
| `GenericS3Dao.DispatchNext` | src/main/java/com/apesconsole/file_reader/GenericS3Dao.java:108-125 | dispatching the next chunk under the next part number extends the in-order dispatch |
| `GenericS3Dao.SettledAppend` | src/main/java/com/apesconsole/file_reader/GenericS3Dao.java:111-125 | adding one dispatched part adds its settled future at the end of the list |
| `GenericS3Dao.ChunkConsumed` | src/main/java/com/apesconsole/file_reader/GenericS3Dao.java:106-107 | one turn of the loop: the filled read is the next chunk of the whole slicing, and the chunks ahead move on by one |
| `GenericS3Dao.KeptOfSettledAscending` | src/main/java/com/apesconsole/file_reader/GenericS3Dao.java:111-144 | for parts numbered from one in dispatch order, the kept parts are already strictly ascending and numbered within 1..N |
| `GenericS3Dao.KeptOfSettledMembers` | src/main/java/com/apesconsole/file_reader/GenericS3Dao.java:113-123 | a part is kept exactly when the store acknowledged the part with that number, with that ETag; failed parts are dropped |
| `GenericS3Dao.ManifestOfUploadedParts` | src/main/java/com/apesconsole/file_reader/GenericS3Dao.java:138-147 | for the futures uploadParts makes: sorting changes nothing, the manifest is strictly ascending, and it lists exactly the acknowledged parts |
| `GenericS3Dao.AllPartsUploaded` | src/main/java/com/apesconsole/file_reader/GenericS3Dao.java:138-150 | when every part upload succeeds, the manifest is (1, ETag 1), ..., (N, ETag N) |
| `GenericS3Dao.DispatchedPartsRebuildFile` | src/main/java/com/apesconsole/file_reader/GenericS3Dao.java:99-126 | the dispatched parts are numbered 1..N, each payload is 1..PART_SIZE bytes, and the payloads concatenated in part-number order are a prefix of the file, the whole file without IOException |
| `GenericS3Dao.InitiateMultipartUpload` | src/main/java/com/apesconsole/file_reader/GenericS3Dao.java:85-95 | requests (bucket, key); gives the issued upload id, null on S3Exception, and lets any other exception propagate |
| `GenericS3Dao.UploadParts` | src/main/java/com/apesconsole/file_reader/GenericS3Dao.java:97-133 | dispatches exactly one request per chunk of `SliceFile`, part number i + 1 and chunk i as payload, same bucket/key/upload id; returns null exactly on IOException (open, read or close), else the settled futures in dispatch order |
| `GenericS3Dao.CompleteMultipartUpload` | src/main/java/com/apesconsole/file_reader/GenericS3Dao.java:135-162 | completes with `ManifestOf(futures)` (the non-null parts, sorted by part number) under the same bucket/key/upload id; success is reported exactly when the store completes and at least one future exists |
| `GenericS3Dao.MpFileOps` | src/main/java/com/apesconsole/file_reader/GenericS3Dao.java:61-83 | every request uses the same bucket and key; no upload id means no part and no completion; IOException means parts but no completion; otherwise the parts of `SliceFile`, then one completion with the manifest |
| `GenericS3Dao.GenericFileOps` | src/main/java/com/apesconsole/file_reader/GenericS3Dao.java:47-52 | the PutObject request uses the same bucket and object key as the multipart path, and the file itself |

## Left out

- Concurrency of the part uploads and the order in which they settle: each future is modelled as already settled, because only the join order over the list matters (line 139).
- Aliasing of the reused buffer: line 107 hands the buffer itself to `AsyncRequestBody.fromBytes` when a read fills it. The model takes a snapshot of the buffer at dispatch (`buffer[..]`). That assumes the SDK copies the bytes before the next read.
- UploadParts: does not model 32-bit overflow of the part number, which would take 2^31 parts or more: the counter starts at 1 (line 100), so after part 2^31 - 1 the increment at line 124 wraps it and the 2^31-th part would be numbered `Integer.MIN_VALUE`.
- Exceptions thrown synchronously by `uploadPart` before a future exists are not modelled. Each part upload is a settled ETag or a failure that `exceptionally` maps to null.
- An initiation response whose `uploadId()` is null is not modelled. The oracle either issues an id or throws.
- The result of `putObject` in `genericFileOps` is not modelled: only the request it sends is.
- The in-place mechanics of `List.sort` (a merge sort in the JDK) are not modelled. Its effect is given by a stable insertion sort on values.
- Timing (`System.currentTimeMillis`), logging and printing are left out; the printed success or error message of completion is the `CompletionReport`.
- Real `FileInputStream` behaviour is replaced by the `FileModel` oracle.
- The SDK client construction (S3Configuration.java) and the HTTP routes (Simulator.java) are not part of this model.
