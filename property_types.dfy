/** The property-system types the properties decoder works with, and the
    environment it queries: the property info table (absent until the game
    database is initialized), property names, curve names and the parameter
    encodings of Property.ToParam. */
module PropertyTypes {
  import opened Wrappers
  import opened Json
  import opened Numerals
  import opened Element

  /** Property.MaxParamCount. */
  const MaxParamCount: nat := 4

  /** CurveId.Invalid. */
  const InvalidCurve: UInt64 := 0

  /** The four parameter slots of a property key. */
  type ParamSlots = s: seq<UInt64> | |s| == MaxParamCount witness [0, 0, 0, 0]

  datatype ParamType = AssetParam | PrototypeParam | IntegerParam | InvalidParam

  /** The declared type of each of the four slots. */
  type ParamTypes = s: seq<ParamType> | |s| == MaxParamCount
    witness [InvalidParam, InvalidParam, InvalidParam, InvalidParam]

  datatype DataType = IntegerData | RealData | BooleanData | PrototypeData | AssetData | CurveData | OtherData(code: int)

  /** A property value, by what it was made from. */
  datatype PropertyValue =
    | IntValue(l: int)
    | RealValue(f: Float)
    | BooleanValue(b: bool)
    | PrototypeValue(id: UInt64)
    | AssetValue(id: UInt64)
    | RawValue(bits: UInt64)

  /** The 64 bits of a property value, which (CurveId)value reinterprets. */
  function AsCurveId(v: PropertyValue): (r: UInt64)
  {
    match v
    case IntValue(l) => l % UInt64Limit
    case RealValue(f) => f.bits % UInt64Limit
    case BooleanValue(b) => if b then 1 else 0
    case PrototypeValue(id) => id
    case AssetValue(id) => id
    case RawValue(bits) => bits
  }

  /** A property key: the property and, when it takes parameters, its four
      parameter slots (empty for a property without parameters). */
  datatype PropertyId = PropertyId(prop: nat, params: seq<UInt64>)

  /** What the PropertyInfoTable knows of a property. */
  datatype PropertyInfo = PropertyInfo(
    paramCount: int,
    paramTypes: ParamTypes,
    dataType: DataType,
    isCurveProperty: bool,
    defaultValue: PropertyValue,
    defaultParamValues: ParamSlots,
    defaultCurveIndex: PropertyId)

  /** The environment: GameDatabase.PropertyInfoTable (None until it is
      initialized), Enum.Parse of a PropertyEnum name, CurveRefManager's
      GetDataRefByName (InvalidCurve for an unknown name), the two
      Property.ToParam encodings (of an AssetId, and of a PrototypeId for a
      property's i-th slot), the narrowing (float)value of a double, and
      JsonDocument.Parse of a raw text. */
  datatype PropertyEnv = PropertyEnv(
    infoTable: Option<map<nat, PropertyInfo>>,
    propertyEnumOf: string -> Option<nat>,
    curveByName: string -> UInt64,
    assetToParam: UInt64 -> UInt64,
    prototypeToParam: (nat, nat, UInt64) -> UInt64,
    narrow: Float -> Float,
    parseDocument: string -> Result<Json, Error>)

  /** The unchecked conversion (int)value of a 64-bit integer: its low 32 bits
      as a signed integer. */
  function TruncateToInt32(l: int): (r: int)
    ensures Int32Min <= r <= Int32Max
    ensures Int32Min <= l <= Int32Max ==> r == l
    ensures (r - l) % 0x1_0000_0000 == 0
  {
    var low := l % 0x1_0000_0000;
    if low <= Int32Max then low else low - 0x1_0000_0000
  }

  /** (PropertyParam)(int)value: a 32-bit integer sign-extended to 64 bits,
      that is the 64-bit pattern congruent to it whose top 33 bits all copy
      its sign. */
  function Int32ToParam(i: int): (r: UInt64)
    requires Int32Min <= i <= Int32Max
    ensures (r - i) % UInt64Limit == 0
    ensures i < 0 <==> r >= UInt64Limit + Int32Min
    ensures r <= Int32Max || r >= UInt64Limit + Int32Min
  {
    if i < 0 then UInt64Limit + i else i
  }
}
