/** ParseJsonCurveId, ParseJsonPropertyValue and ParseJsonProperties: a JSON
    object of properties read into a property collection. */
module PropertyValues {
  import opened Wrappers
  import opened Json
  import opened Numerals
  import opened Element
  import opened Coercion
  import opened PropertyTypes
  import opened PropertyKeys

  /** A curve property as SetCurveProperty stores it: the curve and the
      property whose value indexes it. */
  datatype CurveEntry = CurveEntry(curve: UInt64, indexProperty: PropertyId)

  /** The part of a PropertyCollection the decoder writes: plain values by
      key (SetProperty) and curve properties by key (SetCurveProperty). */
  datatype PropertyCollection = PropertyCollection(
    values: map<PropertyId, PropertyValue>,
    curves: map<PropertyId, CurveEntry>)

  const EmptyCollection := PropertyCollection(map[], map[])

  /** ParseJsonCurveId: for a property with parameters the curve is the last
      array element (the value itself when the array is empty); a number that
      reads as ulong is the curve id, a string that is not blank is read by
      ulong.TryParse or looked up by name; anything else is CurveId.Invalid. */
  function ParseJsonCurveId(node: Json, info: PropertyInfo, env: PropertyEnv): (r: Result<UInt64, Error>)
    ensures r.Failure? <==> info.paramCount > 0 && !node.Array?
    ensures r.Failure? ==> r.error == WrongValueKind
    ensures info.paramCount <= 0 ==> r == Success(CurveOfElement(node, env))
    ensures info.paramCount > 0 && node.Array? && node.items != [] ==>
              r == Success(CurveOfElement(node.items[|node.items| - 1], env))
    ensures info.paramCount > 0 && node.Array? && node.items == [] ==> r == Success(InvalidCurve)
  {
    var element :- CurveElement(node, info);
    Success(CurveOfElement(element, env))
  }

  /** The node that holds the curve: the last array element for a property
      with parameters and a non-empty array, the value itself otherwise. */
  function CurveElement(node: Json, info: PropertyInfo): Result<Json, Error>
  {
    if info.paramCount > 0 then
      var jsonArray :- EnumerateArray(node);
      Success(if |jsonArray| > 0 then jsonArray[|jsonArray| - 1] else node)
    else Success(node)
  }

  /** The curve a node names, in the priority order of the source: a number
      with a ulong reading is that id and any other number is
      CurveId.Invalid; a non-blank string is its ulong reading when it has
      one and otherwise the curve of that name; a blank string and every
      other node are CurveId.Invalid. */
  function CurveOfElement(element: Json, env: PropertyEnv): (r: UInt64)
    ensures element.Number? && NumberUInt64(element.text).Some? ==> r == NumberUInt64(element.text).value
    ensures element.Number? && NumberUInt64(element.text).None? ==> r == InvalidCurve
    ensures element.String? && !IsBlank(element.s) && ParseUInt64(element.s).Some? ==> r == ParseUInt64(element.s).value
    ensures element.String? && !IsBlank(element.s) && ParseUInt64(element.s).None? ==> r == env.curveByName(element.s)
    ensures element.String? && IsBlank(element.s) ==> r == InvalidCurve
    ensures !element.Number? && !element.String? ==> r == InvalidCurve
  {
    if HasUInt64(element) then NumberUInt64(element.text).value
    else if element.String? && !IsBlank(element.s) then
      match ParseUInt64(element.s)
      case Some(curveUlongFromString) => curveUlongFromString
      case None => env.curveByName(element.s)
    else InvalidCurve
  }

  /** ParseJsonPropertyValue: for a property with parameters the value is the
      last array element (an empty array raises IndexOutOfRange); then by data
      type: an integer or real read from a number, falling back to the
      default where the number does not fit; a boolean; a prototype or asset
      identifier; Curve and any other type raise. */
  function ParseJsonPropertyValue(node: Json, info: PropertyInfo, env: PropertyEnv): (r: Result<PropertyValue, Error>)
    ensures info.paramCount > 0 && node.Array? && node.items == [] ==> r == Failure(IndexOutOfRange)
    ensures info.paramCount > 0 && !node.Array? ==> r == Failure(WrongValueKind)
    ensures info.paramCount > 0 && node.Array? && node.items != [] ==>
              r == ValueOfElement(node.items[|node.items| - 1], info, env)
    ensures info.paramCount <= 0 ==> r == ValueOfElement(node, info, env)
  {
    var element :-
      if info.paramCount > 0 then
        var jsonArray :- EnumerateArray(node);
        if |jsonArray| == 0 then Failure(IndexOutOfRange) else Success(jsonArray[|jsonArray| - 1])
      else Success(node);
    ValueOfElement(element, info, env)
  }

  /** The value of the node that holds it, by the property's data type. */
  function ValueOfElement(element: Json, info: PropertyInfo, env: PropertyEnv): (r: Result<PropertyValue, Error>)
    ensures info.dataType == CurveData ==> r == Failure(CurveViaSetProperty)
    ensures info.dataType.OtherData? ==> r == Failure(InvalidPropertyType)
    ensures info.dataType == IntegerData || info.dataType == RealData ==>
              (r.Success? <==> element.Number?) && (r.Failure? ==> r.error == WrongValueKind)
    ensures info.dataType == IntegerData && element.Number? ==>
              r.value == (if NumberInt64(element.text).Some? then IntValue(NumberInt64(element.text).value)
                          else info.defaultValue)
    ensures info.dataType == RealData && element.Number? ==>
              r.value == (if element.double.Some? then RealValue(env.narrow(element.double.value))
                          else info.defaultValue)
    ensures info.dataType == BooleanData ==>
              (r.Success? <==> element.True? || element.False?)
              && (r.Success? ==> r.value == BooleanValue(element.True?))
    ensures info.dataType == PrototypeData || info.dataType == AssetData ==>
              (r.Success? <==> HasUInt64(element)) && (r.Failure? ==> r.error == InvalidCast)
    ensures info.dataType == PrototypeData && HasUInt64(element) ==>
              r.value == PrototypeValue(NumberUInt64(element.text).value)
    ensures info.dataType == AssetData && HasUInt64(element) ==>
              r.value == AssetValue(NumberUInt64(element.text).value)
  {
    IdentifierCastRoundTrip(element, PrototypeIdType);
    IdentifierCastRoundTrip(element, AssetIdType);
    match info.dataType
    case IntegerData =>
      var decimalValue :- TryGetInt64(element);
      Success(if decimalValue.Some? then IntValue(decimalValue.value) else info.defaultValue)
    case RealData =>
      var doubleValue :- TryGetDouble(element);
      Success(if doubleValue.Some? then RealValue(env.narrow(doubleValue.value)) else info.defaultValue)
    case BooleanData =>
      var b :- GetBoolean(element);
      Success(BooleanValue(b))
    case PrototypeData =>
      var protoRefValue :- CastToHandle(ParseJsonElement(element, PrototypeIdType));
      Success(PrototypeValue(protoRefValue))
    case AssetData =>
      var assetValue :- CastToHandle(ParseJsonElement(element, AssetIdType));
      Success(AssetValue(assetValue))
    case CurveData => Failure(CurveViaSetProperty)
    case OtherData(_) => Failure(InvalidPropertyType)
  }

  /** The curve SetCurveProperty receives: the parsed curve, or the
      property's default value read as a curve id where the parse gives
      CurveId.Invalid. */
  function CurveOrDefault(curveId: UInt64, info: PropertyInfo): UInt64
  {
    if curveId == InvalidCurve then AsCurveId(info.defaultValue) else curveId
  }

  /** One member of the properties object applied to the collection: an
      unknown name raises, a property the info table does not know is
      skipped, a curve property is stored with its curve and index property,
      any other with its value. */
  function ApplyProperty(properties: PropertyCollection, property: Member,
                         infoTable: map<nat, PropertyInfo>, env: PropertyEnv)
    : Result<PropertyCollection, Error>
  {
    match env.propertyEnumOf(property.name)
    case None => Failure(UnknownEnumName(property.name))
    case Some(propEnum) =>
      if propEnum !in infoTable then Success(properties)
      else
        var propertyInfo := infoTable[propEnum];
        var propId :- PropertyIdOf(property.value, propEnum, propertyInfo, env);
        if propertyInfo.isCurveProperty then
          var curveId :- ParseJsonCurveId(property.value, propertyInfo, env);
          var entry := CurveEntry(CurveOrDefault(curveId, propertyInfo), propertyInfo.defaultCurveIndex);
          Success(properties.(curves := properties.curves[propId := entry]))
        else
          var propValue :- ParseJsonPropertyValue(property.value, propertyInfo, env);
          Success(properties.(values := properties.values[propId := propValue]))
  }

  /** The collection after the members, in order, from an empty one. */
  function ApplyProperties(members: seq<Member>, infoTable: map<nat, PropertyInfo>, env: PropertyEnv)
    : Result<PropertyCollection, Error>
  {
    if members == [] then Success(EmptyCollection)
    else
      var properties :- ApplyProperties(members[..|members| - 1], infoTable, env);
      ApplyProperty(properties, members[|members| - 1], infoTable, env)
  }

  /** What ParseJsonProperties returns, or the exception it throws. */
  function PropertiesOf(node: Json, env: PropertyEnv): Result<PropertyCollection, Error>
  {
    if env.infoTable.None? then Failure(NotReady)
    else
      var members :- EnumerateObject(node);
      ApplyProperties(members, env.infoTable.value, env)
  }

  /** ParseJsonProperties: refuses to run before the info table exists, then
      applies the members of the object one at a time. */
  method ParseJsonProperties(node: Json, env: PropertyEnv) returns (r: Result<PropertyCollection, Error>)
    ensures r == PropertiesOf(node, env)
  {
    var properties := EmptyCollection;
    var infoTable := env.infoTable;
    if infoTable.None? {
      return Failure(NotReady);
    }
    var table := infoTable.value;
    var enumerated := EnumerateObject(node);
    if enumerated.Failure? {
      return Failure(enumerated.error);
    }
    var members := enumerated.value;
    var i := 0;
    while i < |members|
      invariant 0 <= i <= |members|
      invariant ApplyProperties(members[..i], table, env) == Success(properties)
    {
      var property := members[i];
      assert members[..i + 1][..i] == members[..i];
      var propEnum := env.propertyEnumOf(property.name);
      if propEnum.None? {
        ApplyPropertiesStopsAtFailure(members, table, env, i + 1);
        return Failure(UnknownEnumName(property.name));
      }
      if propEnum.value !in table {
        i := i + 1;
        continue;
      }
      var propertyInfo := table[propEnum.value];
      var propId := ParseJsonPropertyId(property.value, propEnum.value, propertyInfo, env);
      if propId.Failure? {
        ApplyPropertiesStopsAtFailure(members, table, env, i + 1);
        return Failure(propId.error);
      }
      if propertyInfo.isCurveProperty {
        // the key has already read the array, so the curve cannot raise
        var curveId := ParseJsonCurveId(property.value, propertyInfo, env);
        assert curveId.Success?;
        var entry := CurveEntry(CurveOrDefault(curveId.value, propertyInfo), propertyInfo.defaultCurveIndex);
        properties := properties.(curves := properties.curves[propId.value := entry]);
        i := i + 1;
        continue;
      }
      var propValue := ParseJsonPropertyValue(property.value, propertyInfo, env);
      if propValue.Failure? {
        ApplyPropertiesStopsAtFailure(members, table, env, i + 1);
        return Failure(propValue.error);
      }
      properties := properties.(values := properties.values[propId.value := propValue.value]);
      i := i + 1;
    }
    assert members[..i] == members;
    return Success(properties);
  }

  /** A member that raises ends the parse: the members after it do not matter. */
  lemma {:induction false} ApplyPropertiesStopsAtFailure(members: seq<Member>, infoTable: map<nat, PropertyInfo>,
                                                        env: PropertyEnv, k: nat)
    requires k <= |members|
    requires ApplyProperties(members[..k], infoTable, env).Failure?
    ensures ApplyProperties(members, infoTable, env) == ApplyProperties(members[..k], infoTable, env)
    decreases |members| - k
  {
    if k < |members| {
      var next := members[..k + 1];
      assert next[..|next| - 1] == members[..k];
      ApplyPropertiesStopsAtFailure(members, infoTable, env, k + 1);
    } else {
      assert members[..k] == members;
    }
  }

  /** A quoted decimal curve id is read exactly as the bare number. */
  lemma {:induction false} CurveStringMatchesNumber(u: UInt64, single: Option<Float>, double: Option<Float>,
                                                   info: PropertyInfo, env: PropertyEnv)
    requires info.paramCount <= 0
    ensures ParseJsonCurveId(String(NatToText(u)), info, env) == Success(u)
    ensures ParseJsonCurveId(Number(NatToText(u), single, double), info, env) == Success(u)
  {
    var t := NatToText(u);
    UInt64RoundTrip(u);
    CurveOfUnsignedText(t, u, single, double, env);
    CurveOfUnparameterised(String(t), info, env);
    CurveOfUnparameterised(Number(t, single, double), info, env);
  }

  /** Without parameters the curve is read from the value itself. */
  lemma CurveOfUnparameterised(node: Json, info: PropertyInfo, env: PropertyEnv)
    requires info.paramCount <= 0
    ensures ParseJsonCurveId(node, info, env) == Success(CurveOfElement(node, env))
  {
  }

  /** A text both ulong readers take names the same curve quoted or bare. */
  lemma CurveOfUnsignedText(t: string, u: UInt64, single: Option<Float>, double: Option<Float>, env: PropertyEnv)
    requires ParseUInt64(t) == Some(u) && NumberUInt64(t) == Some(u) && !IsBlank(t)
    ensures CurveOfElement(String(t), env) == u
    ensures CurveOfElement(Number(t, single, double), env) == u
  {
  }

  /** For a property with parameters the curve is read from the last array
      element alone, as for a property without parameters. */
  lemma CurveFromLastElement(node: Json, info: PropertyInfo, env: PropertyEnv)
    requires info.paramCount > 0 && node.Array? && node.items != []
    ensures ParseJsonCurveId(node, info, env)
            == ParseJsonCurveId(node.items[|node.items| - 1], info.(paramCount := 0), env)
  {
  }

  /** A blank curve name is never looked up: it gives CurveId.Invalid, and so
      does a value that is neither a number nor a string. */
  lemma NoCurveName(node: Json, info: PropertyInfo, env: PropertyEnv)
    requires info.paramCount <= 0
    requires (node.String? && IsBlank(node.s)) || !(node.Number? || node.String?)
    ensures ParseJsonCurveId(node, info, env) == Success(InvalidCurve)
  {
  }

  /** The two readers of a parameterised property disagree on an empty array:
      the curve reader falls back to CurveId.Invalid while the value reader
      raises IndexOutOfRange. */
  lemma EmptyArrayAsymmetry(info: PropertyInfo, env: PropertyEnv)
    requires info.paramCount > 0
    ensures ParseJsonCurveId(Array([]), info, env) == Success(InvalidCurve)
    ensures ParseJsonPropertyValue(Array([]), info, env) == Failure(IndexOutOfRange)
  {
  }

  /** The shape of a key of a property: no slots for a property without
      parameters, four otherwise. */
  predicate KeyFits(id: PropertyId, prop: nat, info: PropertyInfo)
  {
    id.prop == prop && |id.params| == (if info.paramCount == 0 then 0 else MaxParamCount)
  }

  /** What every collection the decoder builds satisfies: plain values only
      under keys of known non-curve properties, curve entries only under keys
      of known curve properties, each with the property's index property and
      with a curve that is CurveId.Invalid only where the default is too. */
  ghost predicate WellFormed(properties: PropertyCollection, infoTable: map<nat, PropertyInfo>)
  {
    && (forall id :: id in properties.values ==>
          id.prop in infoTable && !infoTable[id.prop].isCurveProperty && KeyFits(id, id.prop, infoTable[id.prop]))
    && (forall id :: id in properties.curves ==>
          && id.prop in infoTable && infoTable[id.prop].isCurveProperty && KeyFits(id, id.prop, infoTable[id.prop])
          && properties.curves[id].indexProperty == infoTable[id.prop].defaultCurveIndex
          && (properties.curves[id].curve == InvalidCurve ==> AsCurveId(infoTable[id.prop].defaultValue) == InvalidCurve))
  }

  /** Applying one member keeps the collection well formed. */
  lemma ApplyPropertyKeepsWellFormed(properties: PropertyCollection, property: Member,
                                     infoTable: map<nat, PropertyInfo>, env: PropertyEnv)
    requires WellFormed(properties, infoTable)
    requires ApplyProperty(properties, property, infoTable, env).Success?
    ensures WellFormed(ApplyProperty(properties, property, infoTable, env).value, infoTable)
  {
    var propEnum := env.propertyEnumOf(property.name).value;
    if propEnum in infoTable {
      PropertyIdSlots(property.value, propEnum, infoTable[propEnum], env);
    }
  }

  /** Every collection ParseJsonProperties returns is well formed, and no key
      holds both a plain value and a curve. */
  lemma {:induction false} PropertiesWellFormed(members: seq<Member>, infoTable: map<nat, PropertyInfo>, env: PropertyEnv)
    requires ApplyProperties(members, infoTable, env).Success?
    ensures WellFormed(ApplyProperties(members, infoTable, env).value, infoTable)
    ensures var properties := ApplyProperties(members, infoTable, env).value;
            forall id :: id in properties.values ==> id !in properties.curves
  {
    if members != [] {
      var front := members[..|members| - 1];
      PropertiesWellFormed(front, infoTable, env);
      ApplyPropertyKeepsWellFormed(ApplyProperties(front, infoTable, env).value, members[|members| - 1], infoTable, env);
    }
  }

  /** A member whose name is not a property name makes the whole parse fail. */
  lemma {:induction false} UnknownNameFails(members: seq<Member>, infoTable: map<nat, PropertyInfo>,
                                          env: PropertyEnv, k: nat)
    requires k < |members| && env.propertyEnumOf(members[k].name).None?
    ensures ApplyProperties(members, infoTable, env).Failure?
  {
    if k < |members| - 1 {
      UnknownNameFails(members[..|members| - 1], infoTable, env, k);
    }
  }

  /** A member naming a property the info table does not describe leaves the
      collection as it is. */
  lemma UndescribedMemberSkipped(properties: PropertyCollection, property: Member,
                                 infoTable: map<nat, PropertyInfo>, env: PropertyEnv)
    requires env.propertyEnumOf(property.name).Some? && env.propertyEnumOf(property.name).value !in infoTable
    ensures ApplyProperty(properties, property, infoTable, env) == Success(properties)
  {
  }

  /** A member naming a property the info table does not describe is
      skipped: the parse gives what it gives without that member. */
  lemma {:induction false} UndescribedPropertiesSkipped(members: seq<Member>, infoTable: map<nat, PropertyInfo>,
                                                      env: PropertyEnv, k: nat)
    requires k < |members|
    requires env.propertyEnumOf(members[k].name).Some? && env.propertyEnumOf(members[k].name).value !in infoTable
    ensures ApplyProperties(members, infoTable, env) == ApplyProperties(members[..k] + members[k + 1..], infoTable, env)
  {
    var rest := members[..k] + members[k + 1..];
    if k == |members| - 1 {
      assert rest == members[..|members| - 1];
      var before := ApplyProperties(rest, infoTable, env);
      if before.Success? {
        UndescribedMemberSkipped(before.value, members[k], infoTable, env);
      }
    } else {
      var front := members[..|members| - 1];
      UndescribedPropertiesSkipped(front, infoTable, env, k);
      assert front[..k] == members[..k];
      assert rest[..|rest| - 1] == front[..k] + front[k + 1..] by {
        assert front[k + 1..] == members[k + 1..|members| - 1];
      }
      assert rest[|rest| - 1] == members[|members| - 1];
    }
  }

  /** Member m stores a plain value under key id. */
  predicate WritesValue(m: Member, id: PropertyId, infoTable: map<nat, PropertyInfo>, env: PropertyEnv)
  {
    match env.propertyEnumOf(m.name)
    case None => false
    case Some(propEnum) =>
      propEnum in infoTable && !infoTable[propEnum].isCurveProperty
      && PropertyIdOf(m.value, propEnum, infoTable[propEnum], env) == Success(id)
  }

  /** Member m stores a curve under key id. */
  predicate WritesCurve(m: Member, id: PropertyId, infoTable: map<nat, PropertyInfo>, env: PropertyEnv)
  {
    match env.propertyEnumOf(m.name)
    case None => false
    case Some(propEnum) =>
      propEnum in infoTable && infoTable[propEnum].isCurveProperty
      && PropertyIdOf(m.value, propEnum, infoTable[propEnum], env) == Success(id)
  }

  /** A parse that succeeds succeeds on every prefix of the members. */
  lemma PrefixSucceeds(members: seq<Member>, infoTable: map<nat, PropertyInfo>, env: PropertyEnv)
    requires members != [] && ApplyProperties(members, infoTable, env).Success?
    ensures ApplyProperties(members[..|members| - 1], infoTable, env).Success?
  {
  }

  /** The value stored under a key is the one read from the last member that
      stores a value under it: members after it that skip, store a curve or
      store under another key leave it in place. */
  lemma {:induction false} LastMemberWins(members: seq<Member>, infoTable: map<nat, PropertyInfo>, env: PropertyEnv,
                                          k: nat, propEnum: nat, id: PropertyId, v: PropertyValue)
    requires k < |members| && ApplyProperties(members, infoTable, env).Success?
    requires env.propertyEnumOf(members[k].name) == Some(propEnum)
    requires propEnum in infoTable && !infoTable[propEnum].isCurveProperty
    requires PropertyIdOf(members[k].value, propEnum, infoTable[propEnum], env) == Success(id)
    requires ParseJsonPropertyValue(members[k].value, infoTable[propEnum], env) == Success(v)
    requires forall j :: k < j < |members| ==> !WritesValue(members[j], id, infoTable, env)
    ensures var properties := ApplyProperties(members, infoTable, env).value;
            id in properties.values && properties.values[id] == v
  {
    var front := members[..|members| - 1];
    PrefixSucceeds(members, infoTable, env);
    if k < |members| - 1 {
      assert forall j :: k < j < |front| ==> front[j] == members[j];
      LastMemberWins(front, infoTable, env, k, propEnum, id, v);
      assert !WritesValue(members[|members| - 1], id, infoTable, env);
    }
  }

  /** The curve stored under a key is the one read from the last member that
      stores a curve under it, with CurveId.Invalid replaced by the
      property's default value, and with the property's index property. */
  lemma {:induction false} LastCurveWins(members: seq<Member>, infoTable: map<nat, PropertyInfo>, env: PropertyEnv,
                                         k: nat, propEnum: nat, id: PropertyId, curve: UInt64)
    requires k < |members| && ApplyProperties(members, infoTable, env).Success?
    requires env.propertyEnumOf(members[k].name) == Some(propEnum)
    requires propEnum in infoTable && infoTable[propEnum].isCurveProperty
    requires PropertyIdOf(members[k].value, propEnum, infoTable[propEnum], env) == Success(id)
    requires ParseJsonCurveId(members[k].value, infoTable[propEnum], env) == Success(curve)
    requires forall j :: k < j < |members| ==> !WritesCurve(members[j], id, infoTable, env)
    ensures var properties := ApplyProperties(members, infoTable, env).value;
            && id in properties.curves
            && properties.curves[id].curve
               == (if curve == InvalidCurve then AsCurveId(infoTable[propEnum].defaultValue) else curve)
            && properties.curves[id].indexProperty == infoTable[propEnum].defaultCurveIndex
  {
    var front := members[..|members| - 1];
    PrefixSucceeds(members, infoTable, env);
    if k < |members| - 1 {
      assert forall j :: k < j < |front| ==> front[j] == members[j];
      LastCurveWins(front, infoTable, env, k, propEnum, id, curve);
      assert !WritesCurve(members[|members| - 1], id, infoTable, env);
    }
  }
}
