/**
 * The `ExpressError` the whole core throws: a message and an optional
 * numeric status, plus the two places where a missing status becomes 500.
 */
module Errors {
  import opened Wrappers

  /** `new ExpressError(message, status)`; `status` is `None` when the constructor is called without one. */
  datatype ExpressError = ExpressError(message: string, status: Option<int>)

  /** `status || 500`: a missing or zero status falls back to 500. */
  function StatusOr500(status: Option<int>): (s: int)
    ensures s != 0
    ensures status.Some? && status.value != 0 ==> s == status.value
    ensures status.None? || status.value == 0 ==> s == 500
  {
    if status.Some? && status.value != 0 then status.value else 500
  }

  /**
   * `catch (err) { throw new ExpressError(err.message, err.status || 500) }`,
   * the re-wrapping every caught failure goes through. A caught error is
   * modelled by its message and status whatever its class.
   */
  function Rewrap(err: ExpressError): (r: ExpressError)
    ensures r.message == err.message
    ensures r.status.Some? && r.status.value != 0
    ensures err.status.Some? && err.status.value != 0 ==> r.status == err.status
    ensures err.status.None? || err.status.value == 0 ==> r.status == Some(500)
  {
    ExpressError(err.message, Some(StatusOr500(err.status)))
  }

  /**
   * Re-wrapping an `ExpressError` that already carries a non-zero status
   * gives that same error back: the serializer's 400 error, caught and
   * rethrown by the upload, keeps its message and its 400.
   */
  lemma RewrapKeepsStatusedError(err: ExpressError)
    requires err.status.Some? && err.status.value != 0
    ensures Rewrap(err) == err
  {
  }

  /** The status the application's general error handler answers with: `err.status || 500`. */
  function ResponseStatus(err: ExpressError): (s: int)
    ensures s != 0
    ensures err.status.Some? && err.status.value != 0 ==> s == err.status.value
    ensures err.status.None? ==> s == 500
    ensures err.status == Some(0) ==> s == 500
  {
    StatusOr500(err.status)
  }
}
