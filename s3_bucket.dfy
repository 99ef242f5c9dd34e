/**
 * operations/aws/s3Bucket.js: `s3Bucket(region, bucketName)`, an object
 * over one S3 client that uploads and downloads objects of one bucket and
 * keeps every response and every error it meets in `responseCache`.
 *
 * `s3.send` is external: its outcome for a call is passed in as `outcome`,
 * and the command it was given is returned as `sent` (`None` when nothing
 * was sent).
 *
 * Every `new ExpressError(...)` in this file names a class the file never
 * imports; the model throws the `(message, status)` error the code spells
 * out, and `ReferenceErrorAsWritten` below records what the file does instead.
 */
module S3Bucket {
  import opened Wrappers
  import opened JsValues
  import opened Errors
  import opened KeySerializer

  /** `new S3Client({ region })`. */
  datatype S3Client = S3Client(region: string)

  /** The command handed to `s3.send`. */
  datatype Command =
    | PutObject(bucket: string, key: string, body: JsValue)
    | GetObject(bucket: string, objectKey: JsValue)

  /** What `s3.send` does with a command: resolve with a response, or reject with an error. */
  datatype SendOutcome = Responds(data: JsValue) | Rejects(err: ExpressError)

  /** An element of `responseCache`: a response object, or a caught error. */
  datatype CacheEntry = Response(data: JsValue) | CaughtError(err: ExpressError)

  const ClientMissingError: ExpressError := ExpressError("S3Client instance not found", Some(500))

  /** The TypeError `s3.send(...)` throws when `s3` is `undefined`. */
  const SendOnUndefinedError: ExpressError := ExpressError("Cannot read properties of undefined (reading 'send')", None)

  /** The object `s3Bucket` returns, with the `s3` and `responseCache` it closes over. */
  class Bucket {
    const region: string
    const bucketName: string
    var s3: Option<S3Client>
    var responseCache: seq<CacheEntry>

    /**
     * Every bucket the factory hands out has a client, and no method removes
     * it: the "no client" branch of `downloadObject` and the creating branch
     * of `resetS3Client` are never taken.
     */
    ghost predicate Valid()
      reads this
    {
      s3.Some?
    }

    /** The factory's success path: a client in `region` and an empty cache. */
    constructor (region: string, bucketName: string)
      ensures this.region == region && this.bucketName == bucketName
      ensures s3 == Some(S3Client(region)) && responseCache == []
      ensures Valid()
    {
      this.region := region;
      this.bucketName := bucketName;
      s3 := Some(S3Client(region));
      responseCache := [];
    }

    /**
     * `uploadObject({ itemId, itemType, groupId, groupType }, file)`: the key
     * is serialized first, so a non-string key part fails before any send;
     * then the file goes to `bucketName` under that key. Exactly one cache
     * entry is appended: the response on success, the caught error on failure.
     */
    method UploadObject(itemId: JsValue, itemType: JsValue, groupId: JsValue, groupType: JsValue,
                        file: JsValue, outcome: SendOutcome)
      returns (r: Result<JsValue, ExpressError>, sent: Option<Command>)
      modifies this`responseCache
      ensures s3 == old(s3)
      ensures SerializeS3Key(itemType, itemId, groupType, groupId).Failure? ==>
        sent == None && r == Failure(Rewrap(InputTypeError)) &&
        responseCache == old(responseCache) + [CaughtError(InputTypeError)]
      ensures SerializeS3Key(itemType, itemId, groupType, groupId).Success? && s3.Some? ==>
        sent == Some(PutObject(bucketName, SerializeS3Key(itemType, itemId, groupType, groupId).value, file)) &&
        (outcome.Responds? ==> r == Success(outcome.data) && responseCache == old(responseCache) + [Response(outcome.data)]) &&
        (outcome.Rejects? ==> r == Failure(Rewrap(outcome.err)) && responseCache == old(responseCache) + [CaughtError(outcome.err)])
      ensures SerializeS3Key(itemType, itemId, groupType, groupId).Success? && s3.None? ==>
        sent == None && r == Failure(Rewrap(SendOnUndefinedError)) &&
        responseCache == old(responseCache) + [CaughtError(SendOnUndefinedError)]
    {
      var key := SerializeS3Key(itemType, itemId, groupType, groupId);
      if key.Failure? {
        sent := None;
        responseCache := responseCache + [CaughtError(key.error)];
        r := Failure(Rewrap(key.error));
        return;
      }
      if s3.None? {
        sent := None;
        responseCache := responseCache + [CaughtError(SendOnUndefinedError)];
        r := Failure(Rewrap(SendOnUndefinedError));
        return;
      }
      sent := Some(PutObject(bucketName, key.value, file));
      match outcome
      case Responds(data) =>
        responseCache := responseCache + [Response(data)];
        r := Success(data);
      case Rejects(err) =>
        responseCache := responseCache + [CaughtError(err)];
        r := Failure(Rewrap(err));
    }

    /**
     * `downloadObject(key)`: without a client it fails with "S3Client
     * instance not found" before any send; otherwise it asks `bucketName`
     * for `key` as given. Exactly one cache entry is appended.
     */
    method DownloadObject(key: JsValue, outcome: SendOutcome)
      returns (r: Result<JsValue, ExpressError>, sent: Option<Command>)
      modifies this`responseCache
      ensures s3 == old(s3)
      ensures s3.None? ==>
        sent == None && r == Failure(ClientMissingError) &&
        responseCache == old(responseCache) + [CaughtError(ClientMissingError)]
      ensures s3.Some? ==> sent == Some(GetObject(bucketName, key))
      ensures s3.Some? && outcome.Responds? ==>
        r == Success(outcome.data) && responseCache == old(responseCache) + [Response(outcome.data)]
      ensures s3.Some? && outcome.Rejects? ==>
        r == Failure(Rewrap(outcome.err)) && responseCache == old(responseCache) + [CaughtError(outcome.err)]
    {
      if s3.None? {
        sent := None;
        responseCache := responseCache + [CaughtError(ClientMissingError)];
        r := Failure(Rewrap(ClientMissingError));
        return;
      }
      sent := Some(GetObject(bucketName, key));
      match outcome
      case Responds(data) =>
        responseCache := responseCache + [Response(data)];
        r := Success(data);
      case Rejects(err) =>
        responseCache := responseCache + [CaughtError(err)];
        r := Failure(Rewrap(err));
    }

    /** `resetS3Client()`: creates a client only when there is none; an existing one is never replaced. */
    method ResetS3Client()
      modifies this`s3
      ensures old(s3).Some? ==> s3 == old(s3)
      ensures old(s3).None? ==> s3 == Some(S3Client(region))
      ensures Valid()
    {
      if s3.None? {
        s3 := Some(S3Client(region));
      }
    }

    /** `getCache()`: every response and error met so far, oldest first. */
    function GetCache(): (cache: seq<CacheEntry>)
      reads this
      ensures cache == responseCache
    {
      responseCache
    }
  }

  /**
   * `s3Bucket(region, bucketName)`. `clientError` stands for `new S3Client`
   * throwing; that error is rethrown re-wrapped and no object is returned.
   */
  method NewBucket(region: string, bucketName: string, clientError: Option<ExpressError>)
    returns (b: Bucket?, err: Option<ExpressError>)
    ensures clientError.Some? ==> b == null && err == Some(Rewrap(clientError.value))
    ensures clientError.None? ==> err == None && b != null && fresh(b)
    ensures b != null ==> b.region == region && b.bucketName == bucketName
    ensures b != null ==> b.s3 == Some(S3Client(region)) && b.responseCache == []
    ensures b != null ==> b.Valid()
  {
    if clientError.Some? {
      b, err := null, Some(Rewrap(clientError.value));
      return;
    }
    b := new Bucket(region, bucketName);
    err := None;
  }

  /**
   * What `throw new ExpressError(err.message, err.status || 500)` does in
   * this file as written: `ExpressError` is not defined here, so evaluating
   * it throws a ReferenceError instead, with no status.
   */
  function ReferenceErrorAsWritten(err: ExpressError): (thrown: ExpressError)
    ensures thrown.status == None
    ensures thrown.message == "ExpressError is not defined"
  {
    ExpressError("ExpressError is not defined", None)
  }

  /**
   * The discrepancy: an upload with a numeric key part. The intended
   * re-wrap keeps "All arguments must be strings" and status 400; the file as
   * written surfaces "ExpressError is not defined", which the application's
   * error handler answers with 500.
   */
  lemma UploadErrorLostAsWritten()
    ensures SerializeS3Key(Num(1), Str("2"), Str("report"), Str("3")) == Failure(InputTypeError)
    ensures Rewrap(InputTypeError) == InputTypeError
    ensures ResponseStatus(Rewrap(InputTypeError)) == 400
    ensures ReferenceErrorAsWritten(InputTypeError).message != InputTypeError.message
    ensures ResponseStatus(ReferenceErrorAsWritten(InputTypeError)) == 500
  {
  }
}
