/** ArrayValue<T>: a JSON array parsed element by element into a T[]. */
module ArrayValues {
  import opened Wrappers
  import opened Json
  import opened Element

  /** The elements parsed in order; the first element that fails decides the
      error. */
  function ParseAll<T>(items: seq<Json>, parser: Json -> Result<T, Error>): Result<seq<T>, Error>
    decreases |items|
  {
    if items == [] then Success([])
    else
      match ParseAll(items[..|items| - 1], parser)
      case Failure(e) => Failure(e)
      case Success(prefix) =>
        match parser(items[|items| - 1])
        case Failure(e) => Failure(e)
        case Success(x) => Success(prefix + [x])
  }

  /** What ArrayValue<T>.ParseJsonElement returns or throws. */
  function ParseArray<T>(node: Json, parser: Json -> Result<T, Error>): Result<seq<T>, Error>
  {
    if !node.Array? then Failure(NotArray)
    else if |node.items| == 0 then Success([])
    else ParseAll(node.items, parser)
  }

  /** The parse succeeds exactly when every element parses; the result then
      has one entry per element, each the parse of that element; a failure is
      the failure of the first element that does not parse. */
  lemma {:induction false} ParseAllShape<T>(items: seq<Json>, parser: Json -> Result<T, Error>)
    ensures ParseAll(items, parser).Success? <==> forall i :: 0 <= i < |items| ==> parser(items[i]).Success?
    ensures ParseAll(items, parser).Success? ==>
              |ParseAll(items, parser).value| == |items|
              && forall i :: 0 <= i < |items| ==> ParseAll(items, parser).value[i] == parser(items[i]).value
    ensures ParseAll(items, parser).Failure? ==>
              exists i :: 0 <= i < |items| && parser(items[i]) == Failure(ParseAll(items, parser).error)
                          && forall j :: 0 <= j < i ==> parser(items[j]).Success?
    decreases |items|
  {
    if items != [] {
      var init := items[..|items| - 1];
      ParseAllShape(init, parser);
      assert forall i :: 0 <= i < |init| ==> init[i] == items[i];
    }
  }

  /** Once a prefix of the elements fails, the whole parse fails with the
      same error: no later element is looked at. */
  lemma {:induction false} ParseAllStopsAtFailure<T>(items: seq<Json>, k: nat, parser: Json -> Result<T, Error>)
    requires k <= |items| && ParseAll(items[..k], parser).Failure?
    ensures ParseAll(items, parser) == ParseAll(items[..k], parser)
    decreases |items| - k
  {
    if k < |items| {
      assert items[..|items| - 1][..k] == items[..k];
      ParseAllStopsAtFailure(items[..|items| - 1], k, parser);
    } else {
      assert items[..k] == items;
    }
  }

  /** A node that is not an array is an error; an empty array is an empty
      result; otherwise the result holds exactly the parsed elements. */
  lemma ParseArrayShape<T>(node: Json, parser: Json -> Result<T, Error>)
    ensures !node.Array? ==> ParseArray(node, parser) == Failure(NotArray)
    ensures node.Array? && node.items == [] ==> ParseArray(node, parser) == Success([])
    ensures ParseArray(node, parser).Success? <==>
              node.Array? && forall i :: 0 <= i < |node.items| ==> parser(node.items[i]).Success?
    ensures ParseArray(node, parser).Success? ==>
              |ParseArray(node, parser).value| == |node.items|
              && forall i :: 0 <= i < |node.items| ==>
                   ParseArray(node, parser).value[i] == parser(node.items[i]).value
  {
    if node.Array? { ParseAllShape(node.items, parser); }
  }

  /** ArrayValue<T>.ParseJsonElement: fills result[i] with the parse of the
      i-th element, throwing the first element's failure. */
  method ParseJsonElement<T(0)>(node: Json, parser: Json -> Result<T, Error>) returns (r: Result<seq<T>, Error>)
    ensures r == ParseArray(node, parser)
  {
    if !node.Array? {
      return Failure(NotArray);
    }
    var jsonArray := node.items;
    if |jsonArray| == 0 {
      return Success([]);
    }
    var result := new T[|jsonArray|];
    var i := 0;
    while i < |jsonArray|
      invariant 0 <= i <= |jsonArray|
      invariant ParseAll(jsonArray[..i], parser) == Success(result[..i])
    {
      var element := parser(jsonArray[i]);
      if element.Failure? {
        assert jsonArray[..i + 1][..i] == jsonArray[..i];
        ParseAllStopsAtFailure(jsonArray, i + 1, parser);
        return Failure(element.error);
      }
      result[i] := element.value;
      assert jsonArray[..i + 1][..i] == jsonArray[..i];
      assert result[..i + 1] == result[..i] + [element.value];
      i := i + 1;
    }
    assert jsonArray[..i] == jsonArray;
    assert result[..i] == result[..];
    return Success(result[..]);
  }
}
