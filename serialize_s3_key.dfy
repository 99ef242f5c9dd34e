/**
 * services/serializeS3Key.js: the storage-key serializer. Four strings
 * become one key `groupType/groupId/itemType/itemId`; anything that is not a
 * string is refused with a 400 error.
 */
module KeySerializer {
  import opened Wrappers
  import opened JsValues
  import opened Errors

  /** The path delimiter between the four key parts. */
  const Delimiter: char := '/'

  /** The error thrown when an argument is not a string. */
  const InputTypeError: ExpressError := ExpressError("All arguments must be strings", Some(400))

  /** `checkInputs(type, inputs)`: scans `inputs` and stops at the first element whose `typeof` differs. */
  function CheckInputs(ty: string, inputs: seq<JsValue>): (r: bool)
    ensures r <==> forall i :: 0 <= i < |inputs| ==> TypeOf(inputs[i]) == ty
  {
    if |inputs| == 0 then true
    else if TypeOf(inputs[0]) != ty then false
    else CheckInputs(ty, inputs[1..])
  }

  /** `parts.join(d)`: the reference definition of a delimited path. */
  function Join(parts: seq<string>, d: char): (s: string)
  {
    if |parts| == 0 then ""
    else if |parts| == 1 then parts[0]
    else parts[0] + [d] + Join(parts[1..], d)
  }

  /** `s.split(d)`: the pieces between delimiters; an empty string splits into one empty piece. */
  function Split(s: string, d: char): (pieces: seq<string>)
    ensures |pieces| >= 1
    ensures forall i :: 0 <= i < |pieces| ==> d !in pieces[i]
    ensures d !in s ==> pieces == [s]
  {
    if |s| == 0 then [""]
    else if s[0] == d then [""] + Split(s[1..], d)
    else
      var rest := Split(s[1..], d);
      assert d !in s ==> s == [s[0]] + s[1..] && d !in s[1..];
      [[s[0]] + rest[0]] + rest[1..]
  }

  /** `serializeS3Key(itemType, itemId, groupType, groupId)`. */
  function SerializeS3Key(itemType: JsValue, itemId: JsValue, groupType: JsValue, groupId: JsValue)
    : (r: Result<string, ExpressError>)
    ensures r.Success? <==> itemType.Str? && itemId.Str? && groupType.Str? && groupId.Str?
    ensures r.Failure? ==> r.error == InputTypeError
    ensures r.Success? ==> r.value == Join([groupType.s, groupId.s, itemType.s, itemId.s], Delimiter)
  {
    if !CheckInputs("string", [itemType, itemId, groupType, groupId]) then
      Failure(InputTypeError)
    else
      assert itemType.Str? && itemId.Str? && groupType.Str? && groupId.Str? by {
        assert TypeOf([itemType, itemId, groupType, groupId][0]) == "string";
        assert TypeOf([itemType, itemId, groupType, groupId][1]) == "string";
        assert TypeOf([itemType, itemId, groupType, groupId][2]) == "string";
        assert TypeOf([itemType, itemId, groupType, groupId][3]) == "string";
      }
      JoinFour(groupType.s, groupId.s, itemType.s, itemId.s, Delimiter);
      Success(groupType.s + "/" + groupId.s + "/" + itemType.s + "/" + itemId.s)
  }

  /** `Join` of exactly four parts, unfolded. */
  lemma JoinFour(a: string, b: string, c: string, e: string, d: char)
    ensures Join([a, b, c, e], d) == a + [d] + b + [d] + c + [d] + e
  {
    assert [c, e][1..] == [e];
    assert Join([c, e], d) == c + [d] + e;
    assert [b, c, e][1..] == [c, e];
    assert Join([b, c, e], d) == b + [d] + (c + [d] + e);
    assert [a, b, c, e][1..] == [b, c, e];
    assert Join([a, b, c, e], d) == a + [d] + (b + [d] + (c + [d] + e));
  }

  /** A string without the delimiter splits into itself. */
  lemma {:induction false} SplitWithoutDelimiter(a: string, d: char)
    requires d !in a
    ensures Split(a, d) == [a]
  {
    if |a| > 0 {
      assert a[0] != d && d !in a[1..];
      SplitWithoutDelimiter(a[1..], d);
      assert [a[0]] + a[1..] == a;
    }
  }

  /** Splitting stops at the first delimiter: the piece before it comes first. */
  lemma {:induction false} SplitAtFirstDelimiter(a: string, rest: string, d: char)
    requires d !in a
    ensures Split(a + [d] + rest, d) == [a] + Split(rest, d)
  {
    if |a| == 0 {
      assert a + [d] + rest == [d] + rest;
      assert ([d] + rest)[1..] == rest;
    } else {
      assert (a + [d] + rest)[1..] == a[1..] + [d] + rest;
      SplitAtFirstDelimiter(a[1..], rest, d);
      assert [a[0]] + a[1..] == a;
    }
  }

  /** Round trip: splitting a join of delimiter-free parts gives the parts back. */
  lemma {:induction false} SplitJoin(parts: seq<string>, d: char)
    requires |parts| >= 1
    requires forall i :: 0 <= i < |parts| ==> d !in parts[i]
    ensures Split(Join(parts, d), d) == parts
  {
    if |parts| == 1 {
      SplitWithoutDelimiter(parts[0], d);
    } else {
      SplitJoin(parts[1..], d);
      SplitAtFirstDelimiter(parts[0], Join(parts[1..], d), d);
      assert [parts[0]] + parts[1..] == parts;
    }
  }

  /** The length of a join: the parts plus one delimiter between each neighbouring pair. */
  lemma {:induction false} JoinLength(parts: seq<string>, d: char)
    requires |parts| >= 1
    ensures |Join(parts, d)| == SumLengths(parts) + |parts| - 1
  {
    if |parts| > 1 {
      JoinLength(parts[1..], d);
    }
  }

  function SumLengths(parts: seq<string>): nat
  {
    if |parts| == 0 then 0 else |parts[0]| + SumLengths(parts[1..])
  }

  /**
   * Round trip for keys: when no argument contains "/", splitting the key on "/"
   * recovers `[groupType, groupId, itemType, itemId]` (group first, item second).
   */
  lemma KeyRoundTrip(itemType: string, itemId: string, groupType: string, groupId: string)
    requires Delimiter !in itemType && Delimiter !in itemId && Delimiter !in groupType && Delimiter !in groupId
    ensures SerializeS3Key(Str(itemType), Str(itemId), Str(groupType), Str(groupId)).Success?
    ensures Split(SerializeS3Key(Str(itemType), Str(itemId), Str(groupType), Str(groupId)).value, Delimiter)
         == [groupType, groupId, itemType, itemId]
  {
    SplitJoin([groupType, groupId, itemType, itemId], Delimiter);
  }

  /** Keys of delimiter-free parts are injective: different arguments never share a key. */
  lemma KeyInjective(a: seq<string>, b: seq<string>)
    requires |a| == 4 && |b| == 4
    requires forall i :: 0 <= i < 4 ==> Delimiter !in a[i] && Delimiter !in b[i]
    requires SerializeS3Key(Str(a[0]), Str(a[1]), Str(a[2]), Str(a[3]))
          == SerializeS3Key(Str(b[0]), Str(b[1]), Str(b[2]), Str(b[3]))
    ensures a == b
  {
    KeyRoundTrip(a[0], a[1], a[2], a[3]);
    KeyRoundTrip(b[0], b[1], b[2], b[3]);
  }

  /** The key is exactly as long as its four parts plus three delimiters; empty parts are allowed. */
  lemma KeyLength(itemType: string, itemId: string, groupType: string, groupId: string)
    ensures SerializeS3Key(Str(itemType), Str(itemId), Str(groupType), Str(groupId)).Success?
    ensures |SerializeS3Key(Str(itemType), Str(itemId), Str(groupType), Str(groupId)).value|
         == |itemType| + |itemId| + |groupType| + |groupId| + 3
  {
    JoinLength([groupType, groupId, itemType, itemId], Delimiter);
  }

  /**
   * The argument order of the code: the item arguments come first but land
   * last, so `serializeS3Key('media', '4321', 'report', '1234')` is
   * "report/1234/media/4321", and the call shown in the function's doc
   * comment produces "media/4321/report/1234", not the key it advertises.
   */
  lemma ArgumentOrder()
    ensures SerializeS3Key(Str("media"), Str("4321"), Str("report"), Str("1234")) == Success("report/1234/media/4321")
    ensures SerializeS3Key(Str("report"), Str("1234"), Str("media"), Str("4321")) == Success("media/4321/report/1234")
  {
    assert "report" + "/" + "1234" + "/" + "media" + "/" + "4321" == "report/1234/media/4321";
    assert "media" + "/" + "4321" + "/" + "report" + "/" + "1234" == "media/4321/report/1234";
  }
}
