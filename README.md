# Resource access core of a report/media backend, in Dafny

This project models the core of a small Node.js backend that keeps "report"
and "media" records in MongoDB and media files in S3:

- the storage-key serializer (`serializeS3Key`), which names an S3 object
  `groupType/groupId/itemType/itemId` and refuses non-string parts;
- the read-argument validator (`argsMatchOp`), which accepts or rejects an
  `(operation, args)` pair for the `search`, `fullPage` and `singleReport`
  read operations;
- the MongoDB connection handler (`mongoClientHandler`) and its lifecycle:
  connect, collection handles, `killSwitch`, `checkClientConnection`;
- the resource access layer (`databaseOps`): page arithmetic (sort by
  ascending `timestamp`, skip `size * (page - 1)`, limit `size`), lookup by
  raw `_id`, equality search, and the `try`/`catch`/`finally` that re-wraps
  store errors and closes the shared connection;
- the S3 bucket object (`s3Bucket`) with its append-only `responseCache`,
  its at-most-once client initialiser and its upload key;
- the upload-request middleware (`validateMediaUpload`).

JavaScript values are modelled by `JsValues.JsValue` (with `typeof` and
truthiness); every thrown error is an `Errors.ExpressError(message, status)`
whose status is optional, and `err.status || 500` is `Errors.StatusOr500`.
The document store and S3 are outside the model: the collection's documents,
the failure a store call may raise, whether `client.connect()` or
`client.close()` fails, and what `s3.send` answers are parameters of the
methods that use them.

Files: `wrappers.dfy` (Option, Result), `js_values.dfy`, `errors.dfy`,
`serialize_s3_key.dfy`, `args_match_op.dfy`, `connect.dfy`,
`database_ops.dfy`, `s3_bucket.dfy`, `validation.dfy`.

## Behaviour of the code worth noting

- `serializeS3Key`'s doc comment (services/serializeS3Key.js:23-25) shows
  `serializeS3Key('report', '1234', 'media', '4321')` giving
  `'report/1234/media/4321'`; the code (line 33) puts the group arguments
  first, so that call gives `media/4321/report/1234`
  (`KeySerializer.ArgumentOrder`).
- `getPage` takes only `(page, size)`, validates nothing and always uses the
  empty filter. A `size` of 0 reaches the store as `limit(0)`, which MongoDB
  reads as "no limit", so the whole collection comes back
  (`DatabaseOps.SizeZeroIsUnlimited`).
- `getResource` filters on the raw argument: there is no conversion of a
  string to an ObjectId, and no "not found" error; a string id never matches
  a store-assigned ObjectId, so it yields `null`
  (`DatabaseOps.StringIdFindsNoObjectId`). An `undefined` id is sent as
  `null` and finds a document whose `_id` is `null`.
- All methods of one `databaseOps` object share one connection, and
  `getPage`/`getResource` close it in `finally`; `search` and
  `createNewResource` do not close it.
- An error from `killSwitch` in `finally` replaces the method's result or
  error, a store error included (JavaScript `finally` semantics;
  `DatabaseOps.Finally`).
- The layer has no insert, update or delete operation: `createNewResource`
  has an empty body.
- Every object `s3Bucket` returns has a client: the factory returns only
  after `new S3Client` succeeded, and nothing sets `s3` back. So the "no
  client" branch of `downloadObject` (operations/aws/s3Bucket.js:107) and
  the creating branch of `resetS3Client` never act (`S3Bucket.Bucket.Valid`,
  kept by every method; `DownloadObject` and `ResetS3Client` still model
  those branches as written).
- A query key with a dot reaches into nested objects (`{ "a.b": 1 }`
  matches `{ a: { b: 1 } }`), and because the client does not ignore
  `undefined`, `{ f: undefined }` is sent as `{ f: null }` and matches
  documents that lack `f` (`DatabaseOps.DottedAndUndefinedKeys`).
- `search(query)` hands its argument to `find` unchecked, and `argsMatchOp`
  accepts any string as the search query. The driver reads every falsy
  query (`undefined`, `null`, `""`, `0`) as the empty filter, so
  `search("")` returns the whole collection; a non-empty string is not a
  filter and is answered with 500 (`DatabaseOps.ResourceOps.Search`).

## Model

| member | source | states |
|---|---|---|
| `Errors.StatusOr500` | services/databaseOps.js:49 | `err.status \|\| 500`: a present non-zero status is kept, a missing or zero one becomes 500; never 0 |
| `Errors.Rewrap` | services/databaseOps.js:48-49 | a caught error is rethrown with its original message and status `err.status \|\| 500` |
| `Errors.RewrapKeepsStatusedError` | operations/aws/s3Bucket.js:77-101 | re-wrapping an `ExpressError` with a non-zero status, such as the serializer's 400 error caught by the upload, gives that same error back |
| `Errors.ResponseStatus` | app.js:43 | the general error handler answers with the error's non-zero status, and with 500 when the status is missing or 0 |
| `JsValues.TypeOf` | services/serializeS3Key.js:5 | `typeof` is "string" exactly for strings, "number" exactly for numbers and NaN, "undefined" exactly for `undefined` |
| `JsValues.Truthy` | models/argsMatchOp.js:23 | a value is truthy exactly when it is not one of `undefined`, `null`, `false`, `0`, `NaN`, `""` |
| `KeySerializer.CheckInputs` | services/serializeS3Key.js:3-8 | true iff every input's `typeof` is the given type; true for an empty list |
| `KeySerializer.SerializeS3Key` | services/serializeS3Key.js:28-34 | succeeds iff all four arguments are strings, with the key `groupType/groupId/itemType/itemId` as a "/"-join; otherwise fails with "All arguments must be strings", status 400 |
| `KeySerializer.Split` | services/serializeS3Key.js:33 | a reference model of JavaScript's `String.prototype.split`, used to state that the key line 33 joins can be taken apart again (and to read dotted query keys): at least one piece, no piece contains the delimiter, and a string without it is its own single piece |
| `KeySerializer.SplitJoin` | services/serializeS3Key.js:33 | splitting a "/"-join of delimiter-free parts gives the parts back |
| `KeySerializer.KeyRoundTrip` | services/serializeS3Key.js:33 | when no argument contains "/", splitting the key on "/" gives `[groupType, groupId, itemType, itemId]` |
| `KeySerializer.KeyInjective` | services/serializeS3Key.js:33 | distinct delimiter-free arguments never produce the same key |
| `KeySerializer.KeyLength` | services/serializeS3Key.js:28-33 | any four strings, empty ones included, give a key as long as their lengths plus 3 |
| `KeySerializer.ArgumentOrder` | services/serializeS3Key.js:23-33 | ("media","4321","report","1234") gives "report/1234/media/4321"; the doc example's call gives "media/4321/report/1234" |
| `ArgsMatch.ArgsMatchOp` | models/argsMatchOp.js:13-37 | `search` accepted iff `args.query` is a string; `fullPage` iff `page` and `size` are both non-falsy; `singleReport` iff `reportId` is non-falsy; any other operation fails with "Incorrect operation type"; acceptance is `true`, every rejection has status 500 and the case's message |
| `ArgsMatch.VerdictIgnoresOtherKeys` | models/argsMatchOp.js:17-29 | two `args` objects that agree on the keys the operation checks get the same verdict |
| `ArgsMatch.EmptyAndZeroArguments` | models/argsMatchOp.js:16-30 | an empty-string `query` is accepted; an empty `reportId`, a `page` or `size` of 0, a numeric `query` are rejected |
| `Validation.ValidateMediaUpload` | middleware/validation.js:6-19 | `next()` iff `files`, `body.reportId` and `body.mediaId` are all truthy; no files gives "No files recieved" (412) whatever the body; otherwise the missing-id error |
| `Validation.ErrorResponses` | middleware/validation.js:9-12 | the missing-id error has no status and is answered 500; a request without files is answered 412 even when ids are missing too |
| `Connect.ClientHandler.GetCollectionInstance` | services/connect.js:29-31 | every collection handle addresses the database selected at connect time |
| `Connect.ClientHandler.CheckClientConnection` | services/connect.js:51-53 | true iff a client object exists, open or closed |
| `Connect.ClientHandler.KillSwitch` | services/connect.js:37-46 | closes an existing client; a failing close is reported as "Error occured while attempting to close database client" (500); existence of the client is unchanged |
| `Connect.MongoClientHandler` | services/connect.js:11-58 | a handler, with an open client on the configured database, is returned iff connecting succeeded; a failure is swallowed and yields nothing |
| `DatabaseOps.Insert` | services/databaseOps.js:39 | inserting into an ascending sequence keeps it ascending and adds exactly that document |
| `DatabaseOps.SortByTs` | services/databaseOps.js:39-42 | `sort({ timestamp: 1 })` gives an ascending permutation of the collection |
| `DatabaseOps.Limit` | services/databaseOps.js:42 | `limit(0)` keeps everything; a non-zero limit keeps a prefix of `\|n\|` documents, or all when fewer |
| `DatabaseOps.Skips` | services/databaseOps.js:33 | `size * (page - 1)`: 0 on page 1, never negative for page >= 1 and size >= 0, negative for page < 1 and size > 0 |
| `DatabaseOps.Drop` | services/databaseOps.js:42 | `skip(k)`: the documents after the first k, in order; empty when k reaches past the end |
| `DatabaseOps.PageOf` | services/databaseOps.js:33-47 | the page fails exactly when the skip `size * (page - 1)` is negative, with the store's rejection |
| `DatabaseOps.SkipsAdvanceBySize` | services/databaseOps.js:33 | page 1 skips nothing; each later page skips `size` more |
| `DatabaseOps.PageBounded` | services/databaseOps.js:33-47 | for page, size >= 1 the page succeeds with at most `size` documents, ascending by timestamp, all from the collection |
| `DatabaseOps.PageBeyondEndIsEmpty` | services/databaseOps.js:42-47 | for any page and size, a skip at or past the end yields an empty array, not an error |
| `DatabaseOps.SizeZeroIsUnlimited` | services/databaseOps.js:33-42 | a size of 0 returns the whole sorted collection |
| `DatabaseOps.WholeCollectionPages` | services/databaseOps.js:33-47 | for N >= 1 documents, page 1 of size N is the whole collection and page 2 is empty |
| `DatabaseOps.PagesTile` | services/databaseOps.js:33-42 | pages 1..k of size s together are exactly the first k*s documents by timestamp: no overlap, no gap |
| `DatabaseOps.FindOne` | services/databaseOps.js:62 | finds nothing iff no document's `_id` equals the argument; otherwise a document of the collection with that `_id` |
| `DatabaseOps.FindOneReturnsFirstMatch` | services/databaseOps.js:62 | the document found is the first match in store order |
| `DatabaseOps.StringIdFindsNoObjectId` | services/databaseOps.js:62-63 | with no conversion of the argument, a string id never finds a document whose `_id` is an ObjectId |
| `DatabaseOps.FieldOf` | services/databaseOps.js:72 | the value a query key compares against, the key read as a dotted path: `_id` is the document's id, an undotted key the document holds gives its value, and an undotted key it lacks reads as `null` |
| `DatabaseOps.AsSent` | services/connect.js:14 | the client is created without `ignoreUndefined`, so an `undefined` query value is sent as `null`; every other value is sent as is |
| `DatabaseOps.FieldOfDottedKey` | services/databaseOps.js:72 | for any key `head.rest` with a dot-free `head`, the compared value is the top-level field `head` followed along the segments of `rest` |
| `DatabaseOps.Matches` | services/databaseOps.js:72 | the empty query matches every document; a query on `_id` matches only that id (as sent); a value other than `null`/`undefined` for a missing undotted field never matches |
| `DatabaseOps.DottedAndUndefinedKeys` | services/databaseOps.js:72 | for a document `{ a: { b: 1 } }`: `{ "a.b": 1 }` matches and `{ "a.b": 2 }` does not; `{ f: undefined }` matches the missing `f`, and `{ a: undefined }` does not match the present `a` |
| `DatabaseOps.Filter` | services/databaseOps.js:72-73 | `find(query)` returns exactly the documents that match the query, each at most as often as the collection holds it |
| `DatabaseOps.SearchFilter` | services/databaseOps.js:72 | the filter `find(query)` runs: every falsy value (`""` included) is the empty filter, an ObjectId stands for `{ _id: id }`, a plain object is itself, and exactly the other truthy values are refused |
| `DatabaseOps.EmptyQueryReturnsAll` | services/databaseOps.js:36 | the empty query returns the whole collection in order |
| `DatabaseOps.Caught` | services/databaseOps.js:48-49 | a successful body passes through; a failure is rethrown with its message and status `err.status \|\| 500` |
| `DatabaseOps.Finally` | services/databaseOps.js:50-52 | an error from `killSwitch` in `finally` replaces the outcome; otherwise the outcome stands |
| `DatabaseOps.ResourceOps.GetPage` | services/databaseOps.js:30-53 | returns the page, the re-wrapped store error or the close error, and leaves the shared connection closed on every path where closing succeeds |
| `DatabaseOps.ResourceOps.GetResource` | services/databaseOps.js:60-69 | returns the lookup of the raw id as sent (`undefined` as `null`; a document or `null`), the re-wrapped store error or the close error, and leaves the shared connection closed on every path where closing succeeds |
| `DatabaseOps.ResourceOps.Search` | services/databaseOps.js:70-78 | a query the driver refuses (a non-empty string, say) fails re-wrapped with 500; otherwise returns `find`'s result for the filter, exactly the matching documents, or the re-wrapped store error; a falsy query (`""`, the empty string `argsMatchOp` accepts, included) returns the whole collection; the connection is never touched |
| `DatabaseOps.ResourceOps.CreateNewResource` | services/databaseOps.js:79 | resolves to `undefined` and changes nothing |
| `DatabaseOps.Create` | services/databaseOps.js:12-86 | with a connection, the methods share one fresh open handler and the named collection of the configured database; without one, the destructuring TypeError is rethrown with status 500 |
| `S3Bucket.Bucket.UploadObject` | operations/aws/s3Bucket.js:73-103 | key `serializeS3Key(itemType, itemId, groupType, groupId)` in the creation-time bucket; a non-string part fails before any send; exactly one cache entry, the response or the error; failures rethrown as `(message, status \|\| 500)` |
| `S3Bucket.Bucket.DownloadObject` | operations/aws/s3Bucket.js:104-130 | without a client fails with "S3Client instance not found" (500) before any send; otherwise fetches the raw key from the creation-time bucket; exactly one cache entry |
| `S3Bucket.Bucket.ResetS3Client` | operations/aws/s3Bucket.js:135-139 | creates a client only when none exists and never replaces one, so repeating it changes nothing; afterwards there is a client |
| `S3Bucket.Bucket.GetCache` | operations/aws/s3Bucket.js:144-146 | returns the whole response cache, oldest entry first |
| `S3Bucket.NewBucket` | operations/aws/s3Bucket.js:31-53 | a new object has a client in its region (`Valid`) and an empty cache; a failing client construction is rethrown re-wrapped |
| `S3Bucket.ReferenceErrorAsWritten` | operations/aws/s3Bucket.js:39 | as written, each `new ExpressError` throws "ExpressError is not defined" with no status |
| `S3Bucket.UploadErrorLostAsWritten` | operations/aws/s3Bucket.js:97-101 | for a numeric key part, the intended error keeps its message and 400, the written code surfaces another message answered with 500 |

## Findings

| source | as written | input that shows it | evidently intended | confidence | as-written member | corrected member |
|---|---|---|---|---|---|---|
| operations/aws/s3Bucket.js:39 | every `throw new ExpressError(...)` in the file (lines 39, 101, 107, 128) names a class the file never imports, so it throws a ReferenceError "ExpressError is not defined" | `uploadObject` with `itemType` = 1: the caller gets "ExpressError is not defined", answered with 500, instead of "All arguments must be strings" with 400 | rethrow `ExpressError(err.message, err.status \|\| 500)` | high; not executed | `S3Bucket.ReferenceErrorAsWritten`, `S3Bucket.UploadErrorLostAsWritten` | `Errors.Rewrap` |

## Left out

- The MongoDB driver and the S3 SDK (`connect`, `close`, `find`/`sort`/`skip`/`limit`/`toArray`, `findOne`, `s3.send`): network I/O; their outcomes are parameters, and their asynchrony and any interleaving of calls are not modelled.
- `DatabaseOps.PageOf`: the text of the store's error for a negative skip belongs to MongoDB, not to this repository; the model uses a fixed message with no status.
- `DatabaseOps.Limit`: a negative limit makes MongoDB return one batch, which may hold fewer than `|n|` documents for large documents; the model returns `|n|`.
- `DatabaseOps.SortByTs`: MongoDB leaves the order of equal timestamps unspecified; the model fixes one order, so page tiling across calls holds only if the store's tie order is stable.
- Documents without a numeric `timestamp`, and numbers that are not integers (fractions, `Infinity`, `-0`) as `page`, `size` or field values: JavaScript numbers are modelled as integers plus NaN.
- `DatabaseOps.Filter`: only equality queries; MongoDB query operators, array matching and projections are not modelled, and an object value is compared as an unordered map, while the store's embedded-document equality depends on field order (the same holds for an object `_id` in `DatabaseOps.FindOne`).
- `DatabaseOps.FieldOf`: a dotted path is followed through plain objects only; a path through an array (matching any element, or a numeric index) reads as `null` in the model.
- `DatabaseOps.AsSent`: only a top-level `undefined` query value is turned into `null`; `undefined` nested inside an object value is compared as is.
- `DatabaseOps.SearchFilter`: follows the 4.x MongoDB driver, which refuses a truthy query that is neither a plain object nor an ObjectId (a non-empty string, a non-zero number, `true`); a 3.x driver instead drops such a query and returns the whole collection. The repository pins no driver version. The refusal's message is the driver's text, not this repository's.
- `DatabaseOps.ResourceOps.Search`: a non-empty string query fails with 500 as the 4.x driver does; under a 3.x driver it would return the whole collection, which the model does not cover.
- What the driver does with a call on a closed client is not modelled; such a failure is one of the `fault` values a call may receive.
- `Connect.ClientHandler.KillSwitch`: after a failing `client.close()` the client is taken to be in the state it was in.
- Driver validation of collection names in `db.collection`, and the factory's catch around it.
- `S3Bucket.Bucket.GetCache`: the array is returned by reference, so a caller could mutate the cache; the model returns its value.
- `S3Bucket.Bucket.UploadObject`: takes the four key parts as values; a `null` or `undefined` keys object makes the destructuring in the parameter list throw a TypeError before the `try`, with no cache entry, which the model does not cover.
- `DatabaseOps.ResourceOps.GetPage`: `page` and `size` are integers; a non-number (such as a string from a query string) reaching `limit(...)`, which the driver refuses with an error answered 500, is not modelled.
- `DatabaseOps.FindOne`: compares `_id` by equality; an object argument holding a query operator (such as `{ $ne: null }`) turns `findOne({ _id: resourceId })` into an operator query, which is not modelled.
- `ArgsMatch.ArgsMatchOp`: `args` is a plain object; a non-object `args` (a TypeError on property access) is not modelled.
- The `ExpressError` class (`../ExpressError`) is not part of this model; it is taken to keep the message and status it is given. `operations/aws/serializeS3Key.js` is not part of this model; it is taken to behave as services/serializeS3Key.js.
- `DB_URI`, `DB_NAME` (config.js): configuration; the database name is a parameter.
- services/s3Bucket.js (a duplicate of the S3 object), models/media.js, models/report.js, the Express routes and app wiring: outside the modelled core.
