/** ParseJsonPropertyId: the property key built from a JSON value, its
    parameter slots filled over the property's defaults. */
module PropertyKeys {
  import opened Wrappers
  import opened Json
  import opened Numerals
  import opened Element
  import opened Coercion
  import opened PropertyTypes

  /** An Asset parameter: a number that reads as ulong is a small enumerant up
      to int.MaxValue and an asset handle above it; a string is read by
      int.TryParse, then by ulong.TryParse with the same rule; anything else
      leaves the slot at its default (None). */
  function AssetParamValue(value: Json, env: PropertyEnv): Option<UInt64>
  {
    if HasUInt64(value) then
      var raw := NumberUInt64(value.text).value;
      Some(if raw <= Int32Max then raw else env.assetToParam(raw))
    else if value.String? then
      match ParseInt32(value.s)
      case Some(rawInt) => Some(Int32ToParam(rawInt))
      case None =>
        match ParseUInt64(value.s)
        case Some(raw) => Some(if raw <= Int32Max then raw else env.assetToParam(raw))
        case None => None
    else None
  }

  /** The new value of slot i for the parameter value, None to keep the
      default, or the exception the slot's type raises. */
  function ParamSlot(value: Json, paramType: ParamType, prop: nat, i: nat, env: PropertyEnv)
    : Result<Option<UInt64>, Error>
  {
    match paramType
    case AssetParam => Success(AssetParamValue(value, env))
    case PrototypeParam =>
      var protoRefParam :- CastToHandle(ParseJsonElement(value, PrototypeIdType));
      Success(Some(env.prototypeToParam(prop, i, protoRefParam)))
    case IntegerParam =>
      var decimalValue :- TryGetInt64(value);
      Success(if decimalValue.Some? then Some(Int32ToParam(TruncateToInt32(decimalValue.value))) else None)
    case InvalidParam => Failure(UnknownParamType)
  }

  /** How many slots the loop visits: min(paramCount, 4), none for a
      negative count. */
  function SlotsVisited(info: PropertyInfo): (n: nat)
    ensures n <= MaxParamCount && (n == 0 || n as int <= info.paramCount)
    ensures n == MaxParamCount || n as int >= info.paramCount
  {
    if info.paramCount <= 0 then 0
    else if info.paramCount < MaxParamCount as int then info.paramCount
    else MaxParamCount
  }

  /** The slots after the loop has visited slots 0 to k - 1: a slot beyond
      the array is skipped, any other is set as ParamSlot says. */
  function ParamsAfter(items: seq<Json>, info: PropertyInfo, prop: nat, env: PropertyEnv, k: nat)
    : Result<ParamSlots, Error>
    requires k <= MaxParamCount
  {
    if k == 0 then Success(info.defaultParamValues)
    else
      var slots :- ParamsAfter(items, info, prop, env, k - 1);
      if k - 1 >= |items| then Success(slots)
      else
        var slot :- ParamSlot(items[k - 1], info.paramTypes[k - 1], prop, k - 1, env);
        Success(if slot.Some? then slots[k - 1 := slot.value] else slots)
  }

  /** The key ParseJsonPropertyId returns, or the exception it throws. */
  function PropertyIdOf(node: Json, prop: nat, info: PropertyInfo, env: PropertyEnv): Result<PropertyId, Error>
  {
    if info.paramCount == 0 then Success(PropertyId(prop, []))
    else
      var jsonArray :- EnumerateArray(node);
      var slots :- ParamsAfter(jsonArray, info, prop, env, SlotsVisited(info));
      Success(PropertyId(prop, slots))
  }

  /** ParseJsonPropertyId: copies the default slots into a four-slot buffer
      and overwrites them one parameter at a time. */
  method ParseJsonPropertyId(node: Json, propEnum: nat, propInfo: PropertyInfo, env: PropertyEnv)
    returns (r: Result<PropertyId, Error>)
    ensures r == PropertyIdOf(node, propEnum, propInfo, env)
  {
    var paramCount := propInfo.paramCount;
    if paramCount == 0 {
      return Success(PropertyId(propEnum, []));
    }
    var enumerated := EnumerateArray(node);
    if enumerated.Failure? {
      return Failure(enumerated.error);
    }
    var jsonArray := enumerated.value;
    var defaults := propInfo.defaultParamValues;
    var paramValues := new UInt64[MaxParamCount];
    paramValues[0], paramValues[1], paramValues[2], paramValues[3] := defaults[0], defaults[1], defaults[2], defaults[3];
    assert paramValues[..] == defaults;
    var i := 0;
    while i < paramCount
      invariant 0 <= i <= MaxParamCount
      invariant paramCount > 0 ==> i <= paramCount
      invariant paramCount < 0 ==> i == 0
      invariant ParamsAfter(jsonArray, propInfo, propEnum, env, i) == Success(paramValues[..])
    {
      if i >= MaxParamCount {
        break;
      }
      if i >= |jsonArray| {
        i := i + 1;
        continue;
      }
      var slot := ParamSlot(jsonArray[i], propInfo.paramTypes[i], propEnum, i, env);
      if slot.Failure? {
        ParamsAfterStopsAtFailure(jsonArray, propInfo, propEnum, env, i + 1, SlotsVisited(propInfo));
        return Failure(slot.error);
      }
      if slot.value.Some? {
        paramValues[i] := slot.value.value;
      }
      i := i + 1;
    }
    assert i == SlotsVisited(propInfo);
    return Success(PropertyId(propEnum, paramValues[..]));
  }

  /** Once a slot throws, the later slots do not matter. */
  lemma {:induction false} ParamsAfterStopsAtFailure(items: seq<Json>, info: PropertyInfo, prop: nat,
                                                     env: PropertyEnv, k: nat, n: nat)
    requires k <= n <= MaxParamCount
    requires ParamsAfter(items, info, prop, env, k).Failure?
    ensures ParamsAfter(items, info, prop, env, n) == ParamsAfter(items, info, prop, env, k)
    decreases n - k
  {
    if k < n {
      ParamsAfterStopsAtFailure(items, info, prop, env, k, n - 1);
    }
  }

  /** The slot i of a key: the parameter's value where slot i was visited,
      there is an i-th array element and ParamSlot gives a value; the
      declared default otherwise. */
  function SlotValue(items: seq<Json>, info: PropertyInfo, prop: nat, env: PropertyEnv, bound: nat, i: nat): UInt64
    requires i < MaxParamCount
  {
    if i < bound && i < |items| then
      match ParamSlot(items[i], info.paramTypes[i], prop, i, env)
      case Success(Some(v)) => v
      case _ => info.defaultParamValues[i]
    else info.defaultParamValues[i]
  }

  lemma {:induction false} ParamsAfterSlots(items: seq<Json>, info: PropertyInfo, prop: nat, env: PropertyEnv, k: nat)
    requires k <= MaxParamCount
    requires ParamsAfter(items, info, prop, env, k).Success?
    ensures forall i :: 0 <= i < MaxParamCount ==>
              ParamsAfter(items, info, prop, env, k).value[i] == SlotValue(items, info, prop, env, k, i)
  {
    if k > 0 {
      ParamsAfterSlots(items, info, prop, env, k - 1);
    }
  }

  /** A property without parameters gets a key with none, whatever the
      value; otherwise the key has four slots, each slot from
      min(paramCount, 4, array length) on keeps its declared default, and
      each earlier slot holds its parameter's value (or the default where
      the parameter leaves it). */
  lemma PropertyIdSlots(node: Json, prop: nat, info: PropertyInfo, env: PropertyEnv)
    ensures info.paramCount == 0 ==> PropertyIdOf(node, prop, info, env) == Success(PropertyId(prop, []))
    ensures info.paramCount != 0 && !node.Array? ==> PropertyIdOf(node, prop, info, env) == Failure(WrongValueKind)
    ensures info.paramCount != 0 && PropertyIdOf(node, prop, info, env).Success? ==>
              var id := PropertyIdOf(node, prop, info, env).value;
              && id.prop == prop && |id.params| == MaxParamCount
              && (forall i :: SlotsVisited(info) <= i < MaxParamCount || |node.items| <= i < MaxParamCount
                              ==> id.params[i] == info.defaultParamValues[i])
              && (forall i :: 0 <= i < MaxParamCount ==> id.params[i] == SlotValue(node.items, info, prop, env, SlotsVisited(info), i))
  {
    if info.paramCount != 0 && node.Array? && PropertyIdOf(node, prop, info, env).Success? {
      ParamsAfterSlots(node.items, info, prop, env, SlotsVisited(info));
    }
  }

  /** A quoted decimal asset parameter is read exactly as the bare number. */
  lemma {:induction false} AssetStringMatchesNumber(u: UInt64, single: Option<Float>, double: Option<Float>, env: PropertyEnv)
    ensures AssetParamValue(String(NatToText(u)), env) == AssetParamValue(Number(NatToText(u), single, double), env)
  {
    var t := NatToText(u);
    UInt64RoundTrip(u);
    ParseInt32OfNatText(u);
    AssetOfUnsignedText(t, u, single, double, env);
  }

  /** A text both ulong readers take, and int.TryParse takes exactly when
      it fits, is the same Asset parameter quoted or bare. */
  lemma AssetOfUnsignedText(t: string, u: UInt64, single: Option<Float>, double: Option<Float>, env: PropertyEnv)
    requires ParseUInt64(t) == Some(u) && NumberUInt64(t) == Some(u)
    requires ParseInt32(t) == if u <= Int32Max then Some(u as int) else None
    ensures AssetParamValue(String(t), env) == AssetParamValue(Number(t, single, double), env)
  {
  }

  /** A string that neither int.TryParse nor ulong.TryParse reads, and a
      number without an unsigned reading (a negative or fractional one),
      leave an Asset slot at its default. */
  lemma AssetUnreadableKeepsDefault(value: Json, env: PropertyEnv)
    requires !HasUInt64(value)
    requires value.String? ==> ParseInt32(value.s).None? && ParseUInt64(value.s).None?
    ensures AssetParamValue(value, env).None?
  {
  }

  /** The decimal text of any ulong, as a bare number: the enumerant itself
      up to int.MaxValue, an asset handle above it. */
  lemma {:induction false} AssetNumberText(u: UInt64, single: Option<Float>, double: Option<Float>, env: PropertyEnv)
    ensures AssetParamValue(Number(NatToText(u), single, double), env)
            == Some(if u <= Int32Max then u else env.assetToParam(u))
  {
    UInt64RoundTrip(u);
  }

  /** An Integer parameter keeps only the low 32 bits of its value, sign
      extended: 4294967297 (2^32 + 1) becomes 1. */
  lemma IntegerParamTruncates(value: Json, prop: nat, i: nat, env: PropertyEnv)
    requires value.Number? && NumberInt64(value.text).Some?
    ensures var l := NumberInt64(value.text).value;
            && ParamSlot(value, IntegerParam, prop, i, env) == Success(Some(Int32ToParam(TruncateToInt32(l))))
            && (Int32Min <= l <= Int32Max ==> TruncateToInt32(l) == l)
            && (l == 0x1_0000_0001 ==> TruncateToInt32(l) == 1)
  {
  }
}
