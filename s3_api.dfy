/**
 * The part of the object-store API that GenericS3Dao uses: the request records it
 * builds, the records it gets back, and the store itself as an oracle whose
 * answers are inputs of the model.
 */
module S3Api {
  import opened Wrappers

  /** One byte of a file or of a part payload. */
  newtype Byte = b: int | 0 <= b < 256

  /**
   * The object key both upload paths use: the configured data path followed by
   * the file name.
   */
  function ObjectKey(s3DataPath: string, fileName: string): (key: string)
    ensures |key| == |s3DataPath| + |fileName|
    ensures key[..|s3DataPath|] == s3DataPath && key[|s3DataPath|..] == fileName
  {
    s3DataPath + fileName
  }

  /** Under one data path, two file names share an object key only if they are equal. */
  lemma ObjectKeyInjective(s3DataPath: string, a: string, b: string)
    ensures ObjectKey(s3DataPath, a) == ObjectKey(s3DataPath, b) <==> a == b
  {
  }

  datatype PutObjectRequest = PutObjectRequest(bucket: string, key: string, filePath: string)

  datatype CreateMultipartUploadRequest = CreateMultipartUploadRequest(bucket: string, key: string)

  datatype UploadPartRequest = UploadPartRequest(
    bucket: string,
    key: string,
    uploadId: string,
    partNumber: int,
    payload: seq<Byte>)

  /** A part the store acknowledged, as it is listed in the completion manifest. */
  datatype CompletedPart = CompletedPart(partNumber: int, eTag: string)

  datatype CompleteMultipartUploadRequest = CompleteMultipartUploadRequest(
    bucket: string,
    key: string,
    uploadId: string,
    parts: seq<CompletedPart>)

  /** A request of the multipart path, in the order the DAO issues them. */
  datatype Request =
    | Create(create: CreateMultipartUploadRequest)
    | Part(part: UploadPartRequest)
    | Complete(complete: CompleteMultipartUploadRequest)
  {
    function Bucket(): string {
      match this
      case Create(r) => r.bucket
      case Part(r) => r.bucket
      case Complete(r) => r.bucket
    }

    function Key(): string {
      match this
      case Create(r) => r.key
      case Part(r) => r.key
      case Complete(r) => r.key
    }
  }

  /**
   * How initiation settles: the store issues an upload id; or
   * `createMultipartUpload` throws an S3Exception itself, before any future
   * exists; or some other exception escapes. A store error delivered through
   * the future surfaces from `join()` wrapped in a CompletionException, so it
   * is an `OtherException`, not an `S3Exception`.
   */
  datatype Initiation = UploadIdIssued(uploadId: string) | S3Exception | OtherException

  /**
   * The asynchronous client, reduced to how each call settles: the answer to an
   * initiation, the ETag of an uploaded part (None when the part's future fails),
   * and whether completion succeeds.
   */
  datatype ObjectStore = ObjectStore(
    createMultipartUpload: CreateMultipartUploadRequest -> Initiation,
    uploadPart: UploadPartRequest -> Option<string>,
    completeMultipartUpload: CompleteMultipartUploadRequest -> bool)
}
