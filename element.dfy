/** The JsonElement accessors the converter calls, with the exception each
    raises as a Failure. */
module Element {
  import opened Wrappers
  import opened Json
  import opened Numerals

  /** The exceptions of the converter, one constructor per raising point. */
  datatype Error =
    | WrongValueKind                // an accessor called on a node of another ValueKind
    | Format                        // a number that does not fit the requested type
    | KeyNotFound(name: string)     // GetProperty of an absent name
    | IndexOutOfRange               // jsonArray[^1] of an empty array
    | InvalidCast                   // unboxing a coerced value as an identifier it is not
    | NotArray                      // "Json element is not array"
    | NotVector3                    // "Json element is not Vector3"
    | NotSupported(code: int)       // a ValueType outside the fifteen kinds
    | UnknownEnumName(name: string) // Enum.Parse of a name that is not declared
    | UnknownPrototypeClass(ref: UInt64) // no class type for a ParentDataRef
    | NotReady                      // the PropertyInfoTable is not initialized yet
    | UnknownParamType              // a parameter type outside Asset/Prototype/Integer
    | CurveViaSetProperty           // a Curve property reaching ParseJsonPropertyValue
    | InvalidPropertyType           // a data type outside Integer/Real/Boolean/Prototype/Asset/Curve
    | MalformedDocument             // JsonDocument.Parse of the stored raw text fails

  /** GetString: the string of a string node, null (None) for a null node. */
  function GetString(node: Json): (r: Result<Option<string>, Error>)
    ensures r.Success? <==> node.String? || node.Null?
    ensures node.String? ==> r == Success(Some(node.s))
    ensures node.Null? ==> r == Success(None)
    ensures r.Failure? ==> r.error == WrongValueKind
  {
    match node
    case String(s) => Success(Some(s))
    case Null => Success(None)
    case _ => Failure(WrongValueKind)
  }

  /** GetBoolean. */
  function GetBoolean(node: Json): (r: Result<bool, Error>)
    ensures r.Success? <==> node.True? || node.False?
    ensures r.Success? ==> r.value == node.True?
  {
    match node
    case True => Success(true)
    case False => Success(false)
    case _ => Failure(WrongValueKind)
  }

  /** GetSingle. */
  function GetSingle(node: Json): (r: Result<Float, Error>)
    ensures r.Success? <==> node.Number? && node.single.Some?
  {
    match node
    case Number(_, single, _) => if single.Some? then Success(single.value) else Failure(Format)
    case _ => Failure(WrongValueKind)
  }

  /** GetInt32. */
  function GetInt32(node: Json): (r: Result<int, Error>)
    ensures r.Success? <==> node.Number? && NumberInt32(node.text).Some?
    ensures r.Success? ==> r.value == NumberInt32(node.text).value && Int32Min <= r.value <= Int32Max
    ensures node.Number? && r.Failure? ==> r.error == Format
  {
    match node
    case Number(text, _, _) => if NumberInt32(text).Some? then Success(NumberInt32(text).value) else Failure(Format)
    case _ => Failure(WrongValueKind)
  }

  /** GetUInt64. */
  function GetUInt64(node: Json): (r: Result<UInt64, Error>)
    ensures r.Success? <==> node.Number? && NumberUInt64(node.text).Some?
    ensures r.Success? ==> r.value == NumberUInt64(node.text).value
  {
    match node
    case Number(text, _, _) => if NumberUInt64(text).Some? then Success(NumberUInt64(text).value) else Failure(Format)
    case _ => Failure(WrongValueKind)
  }

  /** TryGetUInt64: false (None) for a number that does not fit, an exception
      for a node that is not a number. */
  function TryGetUInt64(node: Json): (r: Result<Option<UInt64>, Error>)
    ensures r.Success? <==> node.Number?
    ensures r.Success? ==> r.value == NumberUInt64(node.text)
    ensures r.Failure? ==> r.error == WrongValueKind
  {
    if node.Number? then Success(NumberUInt64(node.text)) else Failure(WrongValueKind)
  }

  /** TryGetInt64. */
  function TryGetInt64(node: Json): (r: Result<Option<int>, Error>)
    ensures r.Success? <==> node.Number?
    ensures r.Success? ==> r.value == NumberInt64(node.text)
    ensures r.Failure? ==> r.error == WrongValueKind
  {
    if node.Number? then Success(NumberInt64(node.text)) else Failure(WrongValueKind)
  }

  /** TryGetDouble. */
  function TryGetDouble(node: Json): (r: Result<Option<Float>, Error>)
    ensures r.Success? <==> node.Number?
  {
    if node.Number? then Success(node.double) else Failure(WrongValueKind)
  }

  /** The position of the last member called name, -1 when there is none. */
  function LastMemberIndex(members: seq<Member>, name: string): (r: int)
    ensures -1 <= r < |members|
    ensures r == -1 ==> forall i :: 0 <= i < |members| ==> members[i].name != name
    ensures r != -1 ==> members[r].name == name && forall j :: r < j < |members| ==> members[j].name != name
  {
    if members == [] then -1
    else if members[|members| - 1].name == name then |members| - 1
    else LastMemberIndex(members[..|members| - 1], name)
  }

  /** The value of the last member called name, as GetProperty matches it. */
  function LastMember(members: seq<Member>, name: string): (r: Option<Json>)
    ensures r.Some? <==> exists i :: 0 <= i < |members| && members[i].name == name
    ensures r.Some? ==> exists i :: 0 <= i < |members| && members[i] == Member(name, r.value)
                                   && forall j :: i < j < |members| ==> members[j].name != name
  {
    var k := LastMemberIndex(members, name);
    if k == -1 then None else Some(members[k].value)
  }

  /** GetProperty. */
  function GetProperty(node: Json, name: string): (r: Result<Json, Error>)
    ensures r.Success? <==> node.Object? && exists i :: 0 <= i < |node.members| && node.members[i].name == name
    ensures r.Success? ==> var k := LastMemberIndex(node.members, name);
                           0 <= k && node.members[k].value == r.value
    ensures r.Failure? ==> r.error == (if node.Object? then KeyNotFound(name) else WrongValueKind)
  {
    if !node.Object? then Failure(WrongValueKind)
    else match LastMember(node.members, name)
      case Some(v) => Success(v)
      case None => Failure(KeyNotFound(name))
  }

  /** EnumerateArray().ToArray(). */
  function EnumerateArray(node: Json): (r: Result<seq<Json>, Error>)
    ensures r.Success? <==> node.Array?
    ensures r.Success? ==> r.value == node.items
  {
    if node.Array? then Success(node.items) else Failure(WrongValueKind)
  }

  /** EnumerateObject(). */
  function EnumerateObject(node: Json): (r: Result<seq<Member>, Error>)
    ensures r.Success? <==> node.Object?
    ensures r.Success? ==> r.value == node.members
  {
    if node.Object? then Success(node.members) else Failure(WrongValueKind)
  }
}
