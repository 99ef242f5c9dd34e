/**
 * middleware/validation.js: `validateMediaUpload`, the checks an upload
 * request passes before it reaches the upload route. The middleware calls
 * `next` exactly once: with nothing when the request is acceptable, with the
 * error otherwise; the result below is that one call.
 */
module Validation {
  import opened Wrappers
  import opened JsValues
  import opened Errors

  /** The parts of an Express request the middleware reads: `request.files` and the parsed `request.body`. */
  datatype Request = Request(files: JsValue, body: map<string, JsValue>)

  /** The single call the middleware makes: `next()` or `next(err)`. */
  datatype NextCall = Next | NextWithError(err: ExpressError)

  const NoFilesError: ExpressError := ExpressError("No files recieved", Some(412))
  const MissingIdsError: ExpressError :=
    ExpressError("Request body must contain both of the following properties: mediaId, reportId", None)

  /** `validateMediaUpload(request, response, next)`: the file check first, then both ids. */
  function ValidateMediaUpload(request: Request): (r: NextCall)
    ensures r == Next <==>
      request.files !in Falsy && Get(request.body, "reportId") !in Falsy && Get(request.body, "mediaId") !in Falsy
    ensures request.files in Falsy ==> r == NextWithError(NoFilesError)
    ensures request.files !in Falsy && r != Next ==> r == NextWithError(MissingIdsError)
  {
    if !Truthy(request.files) then NextWithError(NoFilesError)
    else if !Truthy(Get(request.body, "reportId")) || !Truthy(Get(request.body, "mediaId")) then
      NextWithError(MissingIdsError)
    else Next
  }

  /**
   * The error path as the client sees it through the application's general
   * error handler: a missing file answers 412; a missing id carries no status
   * and so answers 500. A request missing both reports only the file error.
   */
  lemma ErrorResponses(body: map<string, JsValue>, files: JsValue)
    requires files !in Falsy
    requires Get(body, "reportId") in Falsy || Get(body, "mediaId") in Falsy
    ensures ValidateMediaUpload(Request(files, body)).err.status == None
    ensures ResponseStatus(ValidateMediaUpload(Request(files, body)).err) == 500
    ensures ValidateMediaUpload(Request(Undefined, body)) == NextWithError(NoFilesError)
    ensures ResponseStatus(ValidateMediaUpload(Request(Undefined, body)).err) == 412
  {
  }
}
