/**
 * models/argsMatchOp.js: checks that the `args` object of a read request
 * carries what its operation type needs. Acceptance is `true`; every
 * rejection throws an `ExpressError` with status 500.
 */
module ArgsMatch {
  import opened Wrappers
  import opened JsValues
  import opened Errors

  const SearchMessage: string := "args must contain a `query` key corresponding to a string value "
  const FullPageMessage: string :=
    "Both page and size must be specified in args object when passing fullPage as operation type."
  const SingleReportMessage: string :=
    "A reportId must be specified in `args` object for operation type: singleReport"
  const OperationMessage: string := "Incorrect operation type"

  /** The properties of `args` that each operation type looks at. */
  function CheckedKeys(operation: JsValue): (keys: set<string>)
    ensures operation !in {Str("search"), Str("fullPage"), Str("singleReport")} ==> keys == {}
  {
    match operation
    case Str("search") => {"query"}
    case Str("fullPage") => {"page", "size"}
    case Str("singleReport") => {"reportId"}
    case _ => {}
  }

  /**
   * `argsMatchOp(operation, args)`. The switch compares with `===`, so only
   * the three exact strings select a case; `search` tests `typeof`, the two
   * others test truthiness.
   */
  function ArgsMatchOp(operation: JsValue, args: map<string, JsValue>): (r: Result<bool, ExpressError>)
    ensures r.Success? ==> r.value
    ensures r.Failure? ==> r.error.status == Some(500)
    ensures operation == Str("search") ==>
      r == (if Get(args, "query").Str? then Success(true) else Failure(ExpressError(SearchMessage, Some(500))))
    ensures operation == Str("fullPage") ==>
      (r.Success? <==> Get(args, "page") !in Falsy && Get(args, "size") !in Falsy)
    ensures operation == Str("fullPage") && r.Failure? ==> r.error.message == FullPageMessage
    ensures operation == Str("singleReport") ==> (r.Success? <==> Get(args, "reportId") !in Falsy)
    ensures operation == Str("singleReport") && r.Failure? ==> r.error.message == SingleReportMessage
    ensures operation !in {Str("search"), Str("fullPage"), Str("singleReport")} ==>
      r == Failure(ExpressError(OperationMessage, Some(500)))
  {
    match operation
    case Str("search") =>
      var query := Get(args, "query");
      if query != Undefined && TypeOf(query) == "string" then Success(true)
      else Failure(ExpressError(SearchMessage, Some(500)))
    case Str("fullPage") =>
      if Truthy(Get(args, "page")) && Truthy(Get(args, "size")) then Success(true)
      else Failure(ExpressError(FullPageMessage, Some(500)))
    case Str("singleReport") =>
      if Truthy(Get(args, "reportId")) then Success(true)
      else Failure(ExpressError(SingleReportMessage, Some(500)))
    case _ =>
      Failure(ExpressError(OperationMessage, Some(500)))
  }

  /**
   * The verdict depends only on the keys the chosen operation checks: two
   * `args` objects that agree on those keys get the same answer.
   */
  lemma VerdictIgnoresOtherKeys(operation: JsValue, a1: map<string, JsValue>, a2: map<string, JsValue>)
    requires forall k :: k in CheckedKeys(operation) ==> Get(a1, k) == Get(a2, k)
    ensures ArgsMatchOp(operation, a1) == ArgsMatchOp(operation, a2)
  {
    if operation == Str("search") {
      assert "query" in CheckedKeys(operation);
    } else if operation == Str("fullPage") {
      assert "page" in CheckedKeys(operation) && "size" in CheckedKeys(operation);
    } else if operation == Str("singleReport") {
      assert "reportId" in CheckedKeys(operation);
    }
  }

  /**
   * The `typeof` test and the truthiness tests part ways on the empty string
   * and on zero: an empty `query` is accepted, while an empty `reportId`, or a
   * `page` or `size` of 0, is rejected.
   */
  lemma EmptyAndZeroArguments(other: JsValue)
    ensures ArgsMatchOp(Str("search"), map["query" := Str("")]) == Success(true)
    ensures ArgsMatchOp(Str("singleReport"), map["reportId" := Str("")])
         == Failure(ExpressError(SingleReportMessage, Some(500)))
    ensures ArgsMatchOp(Str("fullPage"), map["page" := Num(0), "size" := other]).Failure?
    ensures ArgsMatchOp(Str("fullPage"), map["page" := other, "size" := Num(0)]).Failure?
    ensures ArgsMatchOp(Str("search"), map["query" := Num(0)]).Failure?
  {
  }
}
