/** GetValueBase: the fifteen value kinds of a patch entry and the decoding of
    a JSON node into the payload its declared kind calls for. */
module ValueDecoder {
  import opened Wrappers
  import opened Json
  import opened Numerals
  import opened Element
  import opened Coercion
  import opened ArrayValues
  import PB = PrototypeBuilder

  /** The ValueType enum, in declaration order (its codes are 0 to 14). */
  datatype ValueType =
    | String | Boolean | Float | Integer | Enum | PrototypeGuid | PrototypeId | PrototypeIdArray
    | LocaleStringId | PrototypeDataRef | PrototypeDataRefArray | Prototype | PrototypeArray
    | Vector3 | Properties

  /** The declared names, indexed by code. */
  const Names: seq<string> := [
    "String", "Boolean", "Float", "Integer", "Enum", "PrototypeGuid", "PrototypeId", "PrototypeIdArray",
    "LocaleStringId", "PrototypeDataRef", "PrototypeDataRefArray", "Prototype", "PrototypeArray",
    "Vector3", "Properties"]

  const Kinds: seq<ValueType> := [
    ValueType.String, Boolean, ValueType.Float, Integer, Enum, PrototypeGuid, PrototypeId, PrototypeIdArray,
    LocaleStringId, PrototypeDataRef, PrototypeDataRefArray, ValueType.Prototype, PrototypeArray,
    ValueType.Vector3, Properties]

  /** The enum's underlying value of a kind. */
  function Code(k: ValueType): (c: int)
    ensures 0 <= c < |Kinds| && Kinds[c] == k
  {
    match k
    case String => 0 case Boolean => 1 case Float => 2 case Integer => 3 case Enum => 4
    case PrototypeGuid => 5 case PrototypeId => 6 case PrototypeIdArray => 7 case LocaleStringId => 8
    case PrototypeDataRef => 9 case PrototypeDataRefArray => 10 case Prototype => 11
    case PrototypeArray => 12 case Vector3 => 13 case Properties => 14
  }

  /** The kind an underlying value names, None for a value the enum does not
      declare (Enum.Parse accepts any integer). */
  function KindOf(code: int): (r: Option<ValueType>)
    ensures r.Some? <==> 0 <= code < |Kinds|
    ensures r.Some? ==> Code(r.value) == code
  {
    if 0 <= code < |Kinds| then Some(Kinds[code]) else None
  }

  /** A three-component vector of single-precision values. */
  datatype Vector3 = Vector3Value(x: Float, y: Float, z: Float)

  /** What a decoded value holds. */
  datatype Payload =
    | Text(s: Option<string>)              // String, Enum: GetString, null for a null node
    | Flag(b: bool)                        // Boolean
    | Single(f: Float)                     // Float
    | Int32(i: int)                        // Integer
    | Handle(id: UInt64)                   // PrototypeGuid, PrototypeId, PrototypeDataRef, LocaleStringId
    | Handles(ids: seq<UInt64>)            // PrototypeIdArray, PrototypeDataRefArray
    | Proto(p: PB.Prototype)               // Prototype
    | Protos(ps: seq<PB.Prototype>)        // PrototypeArray
    | Vector(v: Vector3)                   // Vector3
    | RawJson(text: string)                // Properties: the node's raw text, parsed later

  /** A SimpleValue/ArrayValue (or, for Properties, the raw text a
      RawJsonPropertiesValue is made from) with its declared kind. */
  datatype Decoded = Decoded(valueType: ValueType, payload: Payload)

  /** The payload shape each kind carries. */
  predicate PayloadMatches(k: ValueType, p: Payload)
  {
    match k
    case String => p.Text?
    case Enum => p.Text?
    case Boolean => p.Flag?
    case Float => p.Single?
    case Integer => p.Int32? && Int32Min <= p.i <= Int32Max
    case PrototypeGuid => p.Handle?
    case PrototypeId => p.Handle?
    case PrototypeDataRef => p.Handle?
    case LocaleStringId => p.Handle?
    case PrototypeIdArray => p.Handles?
    case PrototypeDataRefArray => p.Handles?
    case Prototype => p.Proto?
    case PrototypeArray => p.Protos?
    case Vector3 => p.Vector?
    case Properties => p.RawJson?
  }

  /** The element parser of the identifier array kinds: x => (PrototypeId)x.GetUInt64(). */
  function ParseHandle(x: Json): Result<UInt64, Error> { GetUInt64(x) }

  /** ParseJsonVector3: an array of exactly three numbers read as singles. */
  function ParseJsonVector3(node: Json): (r: Result<Vector3, Error>)
    ensures r.Success? <==> node.Array? && |node.items| == 3
                            && forall i :: 0 <= i < 3 ==> GetSingle(node.items[i]).Success?
    ensures r.Success? ==> r.value == Vector3Value(GetSingle(node.items[0]).value, GetSingle(node.items[1]).value,
                                              GetSingle(node.items[2]).value)
    ensures !node.Array? ==> r == Failure(NotArray)
    ensures node.Array? && |node.items| != 3 ==> r == Failure(NotVector3)
  {
    if !node.Array? then Failure(NotArray)
    else if |node.items| != 3 then Failure(NotVector3)
    else
      var x :- GetSingle(node.items[0]);
      var y :- GetSingle(node.items[1]);
      var z :- GetSingle(node.items[2]);
      Success(Vector3Value(x, y, z))
  }

  function MapResult<T, U>(r: Result<T, Error>, f: T -> U): Result<U, Error>
  {
    match r
    case Success(v) => Success(f(v))
    case Failure(e) => Failure(e)
  }

  /** The value GetValueBase(node, valueType) builds, or the exception it raises. */
  function DecodeValue(node: Json, code: int, env: PB.PrototypeEnv): Result<Decoded, Error>
  {
    match KindOf(code)
    case None => Failure(NotSupported(code))
    case Some(k) =>
      var payload: Result<Payload, Error> := match k
        case String => MapResult(GetString(node), s => Text(s))
        case Boolean => MapResult(GetBoolean(node), b => Flag(b))
        case Float => MapResult(GetSingle(node), f => Single(f))
        case Integer => MapResult(GetInt32(node), i => Int32(i))
        case Enum => MapResult(GetString(node), s => Text(s))
        case PrototypeGuid => MapResult(GetUInt64(node), u => Handle(u))
        case PrototypeId => MapResult(GetUInt64(node), u => Handle(u))
        case PrototypeDataRef => MapResult(GetUInt64(node), u => Handle(u))
        case LocaleStringId => MapResult(GetUInt64(node), u => Handle(u))
        case PrototypeIdArray => MapResult(ParseArray(node, ParseHandle), ids => Handles(ids))
        case PrototypeDataRefArray => MapResult(ParseArray(node, ParseHandle), ids => Handles(ids))
        case Prototype => MapResult(PB.BuiltPrototype(node, env), p => Proto(p))
        case PrototypeArray => MapResult(ParseArray(node, n => PB.BuiltPrototype(n, env)), ps => Protos(ps))
        case Vector3 => MapResult(ParseJsonVector3(node), v => Vector(v))
        case Properties => Success(RawJson(RawText(node)));
      MapResult(payload, p => Decoded(k, p))
  }

  /** Every decoded value carries the kind it was declared with and the
      payload shape of that kind; a value outside the fifteen kinds is
      NotSupported. */
  lemma DecodedKindMatches(node: Json, code: int, env: PB.PrototypeEnv)
    ensures KindOf(code).None? ==> DecodeValue(node, code, env) == Failure(NotSupported(code))
    ensures DecodeValue(node, code, env).Success? ==>
              var d := DecodeValue(node, code, env).value;
              Code(d.valueType) == code && PayloadMatches(d.valueType, d.payload)
  {
  }

  /** The four identifier kinds decode exactly the numbers that read as
      ulong, carrying the number unchanged as the handle. */
  lemma IdentifierKindsCarryNumber(node: Json, k: ValueType, env: PB.PrototypeEnv)
    requires k in {PrototypeGuid, PrototypeId, PrototypeDataRef, LocaleStringId}
    ensures DecodeValue(node, Code(k), env).Success? <==> HasUInt64(node)
    ensures HasUInt64(node) ==>
              DecodeValue(node, Code(k), env) == Success(Decoded(k, Handle(NumberUInt64(node.text).value)))
  {
  }

  /** The identifier array kinds decode exactly the arrays whose every
      element reads as ulong; the i-th handle is the i-th element's number. */
  lemma IdentifierArrayKinds(node: Json, k: ValueType, env: PB.PrototypeEnv)
    requires k == PrototypeIdArray || k == PrototypeDataRefArray
    ensures DecodeValue(node, Code(k), env).Success? <==>
              node.Array? && forall i :: 0 <= i < |node.items| ==> HasUInt64(node.items[i])
    ensures DecodeValue(node, Code(k), env).Success? ==>
              var ids := DecodeValue(node, Code(k), env).value.payload.ids;
              |ids| == |node.items|
              && forall i :: 0 <= i < |ids| ==> ids[i] == NumberUInt64(node.items[i].text).value
    ensures !node.Array? ==> DecodeValue(node, Code(k), env) == Failure(NotArray)
  {
    ParseArrayShape(node, ParseHandle);
  }

  /** A prototype array decodes exactly when every element builds, one
      prototype per element, in order. */
  lemma PrototypeArrayKind(node: Json, env: PB.PrototypeEnv)
    ensures DecodeValue(node, Code(PrototypeArray), env).Success? <==>
              node.Array? && forall i :: 0 <= i < |node.items| ==> PB.BuiltPrototype(node.items[i], env).Success?
    ensures DecodeValue(node, Code(PrototypeArray), env).Success? ==>
              var ps := DecodeValue(node, Code(PrototypeArray), env).value.payload.ps;
              |ps| == |node.items|
              && forall i :: 0 <= i < |ps| ==> ps[i] == PB.BuiltPrototype(node.items[i], env).value
  {
    ParseArrayShape(node, n => PB.BuiltPrototype(n, env));
  }

  /** String and Enum take a string node, or a null node as a null string;
      any other node is an error. */
  lemma TextKindsTakeStringOrNull(node: Json, k: ValueType, env: PB.PrototypeEnv)
    requires k == ValueType.String || k == Enum
    ensures DecodeValue(node, Code(k), env).Success? <==> node.String? || node.Null?
    ensures node.Null? ==> DecodeValue(node, Code(k), env) == Success(Decoded(k, Text(None)))
    ensures node.String? ==> DecodeValue(node, Code(k), env) == Success(Decoded(k, Text(Some(node.s))))
  {
  }

  /** Properties never fails at load time: whatever the node, its raw text is
      kept for later parsing. */
  lemma PropertiesKindDeferred(node: Json, env: PB.PrototypeEnv)
    ensures DecodeValue(node, Code(Properties), env) == Success(Decoded(Properties, RawJson(RawText(node))))
  {
  }
}
