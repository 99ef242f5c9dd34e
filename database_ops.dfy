/**
 * services/databaseOps.js: the resource access layer. `databaseOps(name)`
 * obtains one connection handler and one collection handle, and returns
 * `getPage`, `getResource`, `search` and `createNewResource`, all running
 * against that one connection.
 *
 * The document store is external. Its contents at the time of a call are
 * passed in as `docs`; a failure the store raises for reasons outside this
 * model (network, a closed client) is passed in as `fault`; a failing
 * `client.close()` is passed in as `closeFails`.
 */
module DatabaseOps {
  import opened Wrappers
  import opened JsValues
  import opened Errors
  import opened Connect
  import KeySerializer

  /** A stored document: its `_id`, its `timestamp` and its other fields. */
  datatype Document = Document(id: JsValue, timestamp: int, fields: map<string, JsValue>)

  /** Documents in non-decreasing `timestamp` order. */
  ghost predicate Ascending(s: seq<Document>)
  {
    forall i, j :: 0 <= i < j < |s| ==> s[i].timestamp <= s[j].timestamp
  }

  // ---------------------------------------------------------------------
  // The store's cursor: sort({ timestamp: 1 }), skip(k), limit(n)
  // ---------------------------------------------------------------------

  /** Places `d` in an ascending sequence, before the first document whose timestamp is not smaller. */
  function Insert(d: Document, s: seq<Document>): (r: seq<Document>)
    ensures multiset(r) == multiset(s) + multiset{d}
    ensures forall x :: x in r ==> x == d || x in s
    ensures Ascending(s) ==> Ascending(r)
  {
    if |s| == 0 || d.timestamp <= s[0].timestamp then [d] + s
    else
      var tail := Insert(d, s[1..]);
      assert Ascending(s) ==> forall x :: x in tail ==> x.timestamp >= s[0].timestamp by {
        if Ascending(s) {
          forall x | x in tail ensures x.timestamp >= s[0].timestamp {
            if x != d {
              var j :| 0 <= j < |s[1..]| && s[1..][j] == x;
              assert s[j + 1] == x;
            }
          }
        }
      }
      assert s == [s[0]] + s[1..];
      [s[0]] + tail
  }

  /** `sort({ timestamp: 1 })`: the collection in ascending timestamp order, as a permutation of it. */
  function SortByTs(docs: seq<Document>): (r: seq<Document>)
    ensures Ascending(r)
    ensures multiset(r) == multiset(docs)
    ensures |r| == |docs|
  {
    if |docs| == 0 then []
    else
      assert docs == [docs[0]] + docs[1..];
      Insert(docs[0], SortByTs(docs[1..]))
  }

  /** The first `n` elements, or all of them when there are fewer. */
  function Take(s: seq<Document>, n: nat): (r: seq<Document>)
    ensures |r| == if n < |s| then n else |s|
    ensures forall i :: 0 <= i < |r| ==> r[i] == s[i]
  {
    if n < |s| then s[..n] else s
  }

  /** All but the first `n` elements; empty when `n` reaches past the end. */
  function Drop(s: seq<Document>, n: nat): (r: seq<Document>)
    ensures |r| == if n < |s| then |s| - n else 0
    ensures forall i :: 0 <= i < |r| ==> r[i] == s[n + i]
  {
    if n < |s| then s[n..] else []
  }

  /** `limit(n)` as the store applies it: 0 means no limit, and a negative limit counts as its magnitude. */
  function Limit(s: seq<Document>, n: int): (r: seq<Document>)
    ensures n == 0 ==> r == s
    ensures n > 0 ==> |r| == if n < |s| then n else |s|
    ensures n < 0 ==> |r| == if -n < |s| then -n else |s|
    ensures forall i :: 0 <= i < |r| ==> r[i] == s[i]
  {
    if n == 0 then s else Take(s, if n < 0 then -n else n)
  }

  lemma LimitIsTake(s: seq<Document>, n: nat)
    requires n > 0
    ensures Limit(s, n) == Take(s, n)
  {
  }

  /** The store's rejection of a negative skip. It carries no status. */
  const NegativeSkipError: ExpressError := ExpressError("Skip value must be non-negative", None)

  // ---------------------------------------------------------------------
  // getPage arithmetic
  // ---------------------------------------------------------------------

  /** `const skips = size * (page - 1)`: pages are numbered from 1. */
  function Skips(page: int, size: int): (k: int)
    ensures page == 1 ==> k == 0
    ensures page >= 1 && size >= 0 ==> k >= 0
    ensures page < 1 && size > 0 ==> k < 0
  {
    size * (page - 1)
  }

  /** Page 1 skips nothing, and every later page skips `size` more than the one before. */
  lemma SkipsAdvanceBySize(page: int, size: int)
    ensures Skips(1, size) == 0
    ensures Skips(page + 1, size) == Skips(page, size) + size
  {
  }

  /**
   * The array `collection.find({}).sort({ timestamp: 1 }).skip(skips).limit(size).toArray()`
   * yields, or the store's error. The filter is empty, so every document is eligible.
   */
  function PageOf(docs: seq<Document>, page: int, size: int): (r: Result<seq<Document>, ExpressError>)
    ensures r.Failure? <==> Skips(page, size) < 0
    ensures r.Failure? ==> r.error == NegativeSkipError
  {
    var skips := Skips(page, size);
    if skips < 0 then Failure(NegativeSkipError)
    else Success(Limit(Drop(SortByTs(docs), skips), size))
  }

  /** Elements of a sub-range of an ascending sequence are ascending, and come from it. */
  lemma {:induction false} WindowOfAscending(s: seq<Document>, k: nat, n: nat)
    requires Ascending(s)
    ensures Ascending(Take(Drop(s, k), n))
    ensures forall x :: x in Take(Drop(s, k), n) ==> x in s
  {
    var w := Take(Drop(s, k), n);
    forall x | x in w ensures x in s {
      var i :| 0 <= i < |w| && w[i] == x;
      assert s[k + i] == x;
    }
    forall i, j | 0 <= i < j < |w| ensures w[i].timestamp <= w[j].timestamp {
      assert w[i] == s[k + i] && w[j] == s[k + j];
    }
  }

  /**
   * For `page` and `size` of at least 1, `getPage` returns at most `size`
   * documents, in ascending timestamp order, all taken from the collection.
   */
  lemma PageBounded(docs: seq<Document>, page: int, size: int)
    requires page >= 1 && size >= 1
    ensures PageOf(docs, page, size).Success?
    ensures |PageOf(docs, page, size).value| <= size
    ensures Ascending(PageOf(docs, page, size).value)
    ensures forall x :: x in PageOf(docs, page, size).value ==> x in docs
  {
    var s := SortByTs(docs);
    assert Skips(page, size) >= 0 by { NonNegativeProduct(size, page - 1); }
    WindowOfAscending(s, Skips(page, size), size);
    forall x | x in s ensures x in docs {
      assert x in multiset(s);
    }
  }

  lemma NonNegativeProduct(a: int, b: int)
    requires a >= 0 && b >= 0
    ensures a * b >= 0
  {
  }

  /** A page whose skip reaches the end of the collection is an empty array, not an error. */
  lemma PageBeyondEndIsEmpty(docs: seq<Document>, page: int, size: int)
    requires Skips(page, size) >= |docs|
    ensures PageOf(docs, page, size) == Success([])
  {
  }

  /**
   * With nothing validating `size`, a size of 0 reaches the store as
   * `limit(0)`, which means no limit: the whole collection comes back.
   */
  lemma SizeZeroIsUnlimited(docs: seq<Document>, page: int)
    ensures PageOf(docs, page, 0) == Success(SortByTs(docs))
  {
    assert Drop(SortByTs(docs), 0) == SortByTs(docs);
  }

  /** For a collection of exactly N >= 1 documents, page 1 of size N is all of it and page 2 is empty. */
  lemma WholeCollectionPages(docs: seq<Document>)
    requires |docs| >= 1
    ensures PageOf(docs, 1, |docs|) == Success(SortByTs(docs))
    ensures PageOf(docs, 2, |docs|) == Success([])
  {
    assert Drop(SortByTs(docs), 0) == SortByTs(docs);
  }

  /** Pages 1..k of size `size`, concatenated. */
  function FirstPages(docs: seq<Document>, k: nat, size: int): seq<Document>
    requires size >= 1
  {
    if k == 0 then []
    else
      var p := PageOf(docs, k, size);
      FirstPages(docs, k - 1, size) + (if p.Success? then p.value else [])
  }

  lemma PageStep(k: nat, size: int)
    requires k >= 1 && size >= 1
    ensures Skips(k, size) == (k - 1) * size >= 0
    ensures Skips(k, size) + size == k * size
  {
    NonNegativeProduct(k - 1, size);
  }

  lemma {:induction false} TakeThenRest(s: seq<Document>, m: nat, n: nat)
    ensures Take(s, m) + Take(Drop(s, m), n) == Take(s, m + n)
  {
    var lhs, rhs := Take(s, m) + Take(Drop(s, m), n), Take(s, m + n);
    assert |lhs| == |rhs|;
    forall i | 0 <= i < |lhs| ensures lhs[i] == rhs[i] {
      if i >= |Take(s, m)| {
        assert lhs[i] == Take(Drop(s, m), n)[i - |Take(s, m)|];
      }
    }
  }

  /** Page k appends the next `size` sorted documents after the first k - 1 pages. */
  lemma FirstPagesStep(docs: seq<Document>, k: nat, size: int)
    requires k >= 1 && size >= 1
    ensures Skips(k, size) >= 0
    ensures FirstPages(docs, k, size)
         == FirstPages(docs, k - 1, size) + Take(Drop(SortByTs(docs), Skips(k, size)), size)
  {
    PageStep(k, size);
    LimitIsTake(Drop(SortByTs(docs), Skips(k, size)), size);
  }

  /**
   * Pages tile the sorted collection: pages 1..k of size `size` together are
   * exactly its first k * size documents, with no overlap and no gap.
   */
  lemma {:induction false} PagesTile(docs: seq<Document>, k: nat, size: int)
    requires size >= 1
    ensures FirstPages(docs, k, size) == Take(SortByTs(docs), k * size)
  {
    var s := SortByTs(docs);
    if k == 0 {
      assert Take(s, 0) == [];
    } else {
      PagesTile(docs, k - 1, size);
      PageStep(k, size);
      FirstPagesStep(docs, k, size);
      TakeThenRest(s, Skips(k, size), size);
    }
  }

  // ---------------------------------------------------------------------
  // getResource and search
  // ---------------------------------------------------------------------

  /**
   * `findOne({ _id: resourceId })`: the first document, in store order, whose
   * `_id` equals the argument as given, or `null` (`None`) when none does.
   */
  function FindOne(docs: seq<Document>, id: JsValue): (r: Option<Document>)
    ensures r.None? <==> forall i :: 0 <= i < |docs| ==> docs[i].id != id
    ensures r.Some? ==> r.value in docs && r.value.id == id
  {
    if |docs| == 0 then None
    else if docs[0].id == id then Some(docs[0])
    else
      var rest := FindOne(docs[1..], id);
      assert rest.None? ==> forall i :: 1 <= i < |docs| ==> docs[i].id != id by {
        if rest.None? {
          forall i | 1 <= i < |docs| ensures docs[i].id != id {
            assert docs[1..][i - 1] == docs[i];
          }
        }
      }
      rest
  }

  /** When the first document matches, it is the one returned. */
  lemma FindOneReturnsFirstMatch(docs: seq<Document>, id: JsValue, i: nat)
    requires i < |docs| && docs[i].id == id
    requires forall j :: 0 <= j < i ==> docs[j].id != id
    ensures FindOne(docs, id) == Some(docs[i])
    decreases i
  {
    if i > 0 {
      FindOneReturnsFirstMatch(docs[1..], id, i - 1);
    }
  }

  /**
   * No identifier conversion: the store's `_id` values are ObjectIds, so a
   * string argument, even the hex text of an existing id, finds nothing.
   */
  lemma StringIdFindsNoObjectId(docs: seq<Document>, hex: string)
    requires forall i :: 0 <= i < |docs| ==> docs[i].id.ObjectId?
    ensures FindOne(docs, Str(hex)) == None
  {
  }

  /** The value a top-level field of a stored document holds; a missing field reads as `null`. */
  function TopField(d: Document, name: string): JsValue
  {
    if name == "_id" then d.id
    else if name == "timestamp" then Num(d.timestamp)
    else if name in d.fields then d.fields[name]
    else Null
  }

  /** Follows the rest of a dotted path through nested plain objects; a step that does not resolve reads as `null`. */
  function Descend(v: JsValue, path: seq<string>): JsValue
    decreases |path|
  {
    if |path| == 0 then v
    else
      match v
      case Obj(props) => if path[0] in props then Descend(props[path[0]], path[1..]) else Null
      case _ => Null
  }

  /**
   * The value the store compares a query key against: the key is a dotted
   * path, its first segment a top-level field and the rest a walk into
   * nested objects; a path that does not resolve reads as `null`.
   */
  function FieldOf(d: Document, key: string): (v: JsValue)
    ensures '.' !in key ==> v == TopField(d, key)
    ensures key == "_id" ==> v == d.id
    ensures '.' !in key && key in d.fields && key !in {"_id", "timestamp"} ==> v == d.fields[key]
    ensures '.' !in key && key !in d.fields && key !in {"_id", "timestamp"} ==> v == Null
  {
    assert '.' !in "_id";
    var path := KeySerializer.Split(key, '.');
    Descend(TopField(d, path[0]), path[1..])
  }

  /** A dotted key reads its first segment as a top-level field and walks the rest of the path from there. */
  lemma FieldOfDottedKey(d: Document, head: string, rest: string)
    requires '.' !in head
    ensures FieldOf(d, head + "." + rest) == Descend(TopField(d, head), KeySerializer.Split(rest, '.'))
  {
    assert head + "." + rest == head + ['.'] + rest;
    KeySerializer.SplitAtFirstDelimiter(head, rest, '.');
    var path := KeySerializer.Split(head + "." + rest, '.');
    assert path == [head] + KeySerializer.Split(rest, '.');
    assert path[0] == head && path[1..] == KeySerializer.Split(rest, '.');
  }

  /** How the driver sends a query value: `undefined` goes out as `null`, since the client does not ignore it. */
  function AsSent(v: JsValue): (w: JsValue)
    ensures w != Undefined
    ensures v == Undefined ==> w == Null
    ensures v != Undefined ==> w == v
  {
    if v == Undefined then Null else v
  }

  /** A document satisfies an equality query when every queried path holds the value as sent. */
  predicate Matches(d: Document, query: map<string, JsValue>): (b: bool)
    ensures query == map[] ==> b
    ensures b && "_id" in query ==> d.id == AsSent(query["_id"])
    ensures forall k :: k in query && '.' !in k && k !in {"_id", "timestamp"} && k !in d.fields && AsSent(query[k]) != Null ==> !b
  {
    forall k :: k in query ==> FieldOf(d, k) == AsSent(query[k])
  }

  /** A dotted key reaches into a nested object, and an `undefined` value matches a missing field. */
  lemma DottedAndUndefinedKeys(d: Document)
    requires d.fields == map["a" := Obj(map["b" := Num(1)])]
    ensures Matches(d, map["a.b" := Num(1)])
    ensures !Matches(d, map["a.b" := Num(2)])
    ensures Matches(d, map["f" := Undefined])
    ensures !Matches(d, map["a" := Undefined])
  {
    var path := KeySerializer.Split("a.b", '.');
    assert '.' !in "a" && '.' !in "b";
    assert "a.b" == "a" + ['.'] + "b";
    KeySerializer.SplitAtFirstDelimiter("a", "b", '.');
    KeySerializer.SplitWithoutDelimiter("b", '.');
    assert path == ["a", "b"];
    assert TopField(d, "a") == Obj(map["b" := Num(1)]);
    assert Descend(Num(1), []) == Num(1);
    assert Descend(TopField(d, "a"), ["b"]) == Num(1);
    assert FieldOf(d, "a.b") == Num(1);
  }

  /** `find(query).toArray()` for an equality query: the matching documents, each at most as often as it is stored. */
  function Filter(docs: seq<Document>, query: map<string, JsValue>): (r: seq<Document>)
    ensures |r| <= |docs|
    ensures multiset(r) <= multiset(docs)
    ensures forall x :: x in r <==> x in docs && Matches(x, query)
  {
    if |docs| == 0 then []
    else
      var rest := Filter(docs[1..], query);
      assert forall x :: x in docs <==> x == docs[0] || x in docs[1..] by {
        assert docs == [docs[0]] + docs[1..];
      }
      assert multiset(docs) == multiset{docs[0]} + multiset(docs[1..]) by {
        assert docs == [docs[0]] + docs[1..];
      }
      if Matches(docs[0], query) then [docs[0]] + rest else rest
  }

  /** The driver's refusal of a filter that is not a document. It carries no status. */
  const QueryFilterError: ExpressError := ExpressError("Query filter must be a plain object or ObjectId", None)

  /**
   * The filter `find(query)` runs for a query value: a plain object is
   * itself, an ObjectId stands for `{ _id: id }`, and every falsy value
   * (`undefined`, `null`, `""`, `0`, `NaN`, `false`) is the empty filter;
   * any other value (a non-empty string, say) is refused (`None`).
   */
  function SearchFilter(query: JsValue): (f: Option<map<string, JsValue>>)
    ensures !Truthy(query) ==> f == Some(map[])
    ensures query.Obj? ==> f == Some(query.props)
    ensures query.ObjectId? ==> f == Some(map["_id" := query])
    ensures f.None? <==> Truthy(query) && !(query.Obj? || query.ObjectId?)
  {
    match query
    case Obj(props) => Some(props)
    case ObjectId(_) => Some(map["_id" := query])
    case _ => if Truthy(query) then None else Some(map[])
  }

  /** The empty query `{}` matches every document, so it returns the whole collection in order. */
  lemma {:induction false} EmptyQueryReturnsAll(docs: seq<Document>)
    ensures Filter(docs, map[]) == docs
  {
    if |docs| > 0 {
      EmptyQueryReturnsAll(docs[1..]);
      assert docs == [docs[0]] + docs[1..];
    }
  }

  // ---------------------------------------------------------------------
  // try / catch / finally
  // ---------------------------------------------------------------------

  /** `catch (err) { throw new ExpressError(err.message, err.status || 500) }` around a store call. */
  function Caught<T>(body: Result<T, ExpressError>): (r: Result<T, ExpressError>)
    ensures body.Success? ==> r == body
    ensures body.Failure? ==> r.Failure? && r.error.message == body.error.message
    ensures body.Failure? ==> r.error.status == Some(StatusOr500(body.error.status))
  {
    if body.Success? then body else Failure(Rewrap(body.error))
  }

  /**
   * `finally { await killSwitch(); }`: an error thrown by `killSwitch`
   * replaces whatever the `try`/`catch` produced, the returned page and the
   * store's error alike.
   */
  function Finally<T>(outcome: Result<T, ExpressError>, closeError: Option<ExpressError>): (r: Result<T, ExpressError>)
    ensures closeError.None? ==> r == outcome
    ensures closeError.Some? ==> r.Failure? && r.error == closeError.value
  {
    if closeError.Some? then Failure(closeError.value) else outcome
  }

  /** The store's answer to a call: its fault if it has one, otherwise what it computes. */
  function Store<T>(fault: Option<ExpressError>, computed: Result<T, ExpressError>): Result<T, ExpressError>
  {
    if fault.Some? then Failure(fault.value) else computed
  }

  /**
   * The error `databaseOps` rethrows when `mongoClientHandler` yielded
   * `undefined`: destructuring it throws the JavaScript engine's TypeError.
   */
  const DestructureError: ExpressError := ExpressError(
    "Cannot destructure property 'getCollectionInstance' of '(intermediate value)' as it is undefined.", None)

  /** The object `databaseOps(collectionName)` resolves to: its methods share one handler and one collection. */
  class ResourceOps {
    const handler: ClientHandler
    const collection: CollectionRef

    ghost predicate Valid()
      reads this, handler
    {
      handler.Valid() && collection.database == handler.dbName
    }

    constructor (handler: ClientHandler, collectionName: string)
      requires handler.Valid()
      ensures Valid()
      ensures this.handler == handler && collection == handler.GetCollectionInstance(collectionName)
    {
      this.handler := handler;
      collection := handler.GetCollectionInstance(collectionName);
    }

    /**
     * `getPage(page, size)`: the page, the re-wrapped store error, or the
     * close error; the connection is closed on every path.
     */
    method GetPage(page: int, size: int, docs: seq<Document>, fault: Option<ExpressError>, closeFails: bool)
      returns (r: Result<seq<Document>, ExpressError>)
      requires Valid()
      modifies handler
      ensures Valid()
      ensures handler.client == if closeFails then old(handler.client) else Closed
      ensures r == Finally(Caught(Store(fault, PageOf(docs, page, size))), if closeFails then Some(CloseError) else None)
    {
      var outcome: Result<seq<Document>, ExpressError>;
      if fault.Some? {
        outcome := Failure(Rewrap(fault.value));
      } else {
        outcome := Caught(PageOf(docs, page, size));
      }
      var closeError := handler.KillSwitch(closeFails);
      if closeError.Some? {
        r := Failure(closeError.value);
      } else {
        r := outcome;
      }
    }

    /**
     * `getResource(resourceId)`: the matching document or `null`, never a
     * "not found" error; the connection is closed on every path. The id goes
     * out as sent, so `undefined` looks for an `_id` of `null`.
     */
    method GetResource(resourceId: JsValue, docs: seq<Document>, fault: Option<ExpressError>, closeFails: bool)
      returns (r: Result<Option<Document>, ExpressError>)
      requires Valid()
      modifies handler
      ensures Valid()
      ensures handler.client == if closeFails then old(handler.client) else Closed
      ensures r == Finally(Caught(Store(fault, Success(FindOne(docs, AsSent(resourceId))))),
                           if closeFails then Some(CloseError) else None)
    {
      var outcome: Result<Option<Document>, ExpressError>;
      if fault.Some? {
        outcome := Failure(Rewrap(fault.value));
      } else {
        outcome := Success(FindOne(docs, AsSent(resourceId)));
      }
      var closeError := handler.KillSwitch(closeFails);
      if closeError.Some? {
        r := Failure(closeError.value);
      } else {
        r := outcome;
      }
    }

    /**
     * `search(query)`: the matching documents; `query` may be any value. A
     * falsy query (`""` included) searches the whole collection; a filter the
     * driver refuses (a non-empty string, say) fails before the store is
     * asked, and is re-wrapped with 500. It never calls `killSwitch`, so the
     * connection stays as it was.
     */
    method Search(query: JsValue, docs: seq<Document>, fault: Option<ExpressError>)
      returns (r: Result<seq<Document>, ExpressError>)
      ensures SearchFilter(query).None? ==> r == Failure(ExpressError(QueryFilterError.message, Some(500)))
      ensures SearchFilter(query).Some? && fault.Some? ==> r == Failure(Rewrap(fault.value))
      ensures SearchFilter(query).Some? && fault.None? ==>
        r.Success? && (forall x :: x in r.value <==> x in docs && Matches(x, SearchFilter(query).value))
      ensures SearchFilter(query).Some? && fault.None? ==> r == Success(Filter(docs, SearchFilter(query).value))
      ensures !Truthy(query) && fault.None? ==> r == Success(docs)
    {
      var filter := SearchFilter(query);
      if filter.None? {
        r := Failure(Rewrap(QueryFilterError));
      } else if fault.Some? {
        r := Failure(Rewrap(fault.value));
      } else {
        EmptyQueryReturnsAll(docs);
        r := Success(Filter(docs, filter.value));
      }
    }

    /** `createNewResource()`: an empty body; it resolves to `undefined` and touches nothing. */
    method CreateNewResource() returns (r: JsValue)
      ensures r == Undefined
    {
      r := Undefined;
    }
  }

  /**
   * `databaseOps(collectionName)`. When connecting failed, the handler is
   * `undefined` and destructuring it throws; that TypeError is re-wrapped
   * with status 500.
   */
  method Create(collectionName: string, dbName: string, connectFails: bool)
    returns (ops: ResourceOps?, err: Option<ExpressError>)
    ensures connectFails <==> ops == null
    ensures connectFails ==> err == Some(ExpressError(DestructureError.message, Some(500)))
    ensures ops != null ==> err == None && fresh(ops) && fresh(ops.handler) && ops.Valid()
    ensures ops != null ==> ops.handler.client == Open && ops.collection == CollectionRef(dbName, collectionName)
  {
    var handler := MongoClientHandler(dbName, connectFails);
    if handler == null {
      ops, err := null, Some(Rewrap(DestructureError));
      return;
    }
    ops := new ResourceOps(handler, collectionName);
    err := None;
  }
}
