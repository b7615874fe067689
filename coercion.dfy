/** ParseJsonElement: the generic conversion of a JSON node to the object a
    prototype field or a property parameter is built from. */
module Coercion {
  import opened Wrappers
  import opened Json
  import opened Numerals
  import opened Element

  /** The declared field types the conversion tells apart; every other type
      (int, float, enums, prototype classes, lists ...) is OtherType. */
  datatype FieldType =
    | PrototypeIdType
    | AssetIdType
    | PrototypeGuidType
    | LocaleStringIdType
    | OtherType(name: string)

  /** The four 64-bit identifier types, which take a number as an opaque handle. */
  predicate IsIdentifierType(t: FieldType) { !t.OtherType? }

  /** The boxed object the conversion returns. GetString, GetRawText and
      ToString all give a .NET string, so they share StringValue. */
  datatype Boxed =
    | PrototypeIdValue(id: UInt64)
    | AssetIdValue(id: UInt64)
    | PrototypeGuidValue(id: UInt64)
    | LocaleStringIdValue(id: UInt64)
    | StringValue(s: string)
    | ULongValue(u: UInt64)
    | LongValue(l: int)
    | DoubleValue(d: Float)
    | BoolValue(b: bool)

  /** The handle of identifier type t for the number u. */
  function Handle(t: FieldType, u: UInt64): (r: Boxed)
    requires IsIdentifierType(t)
  {
    match t
    case PrototypeIdType => PrototypeIdValue(u)
    case AssetIdType => AssetIdValue(u)
    case PrototypeGuidType => PrototypeGuidValue(u)
    case LocaleStringIdType => LocaleStringIdValue(u)
  }

  /** The unsigned reading of a number node, when it has one. */
  predicate HasUInt64(value: Json) { value.Number? && NumberUInt64(value.text).Some? }

  /** ParseJsonElement(value, fieldType), in its priority order: an identifier
      type takes a number that reads as ulong as its handle; otherwise a string
      gives the string; a number gives ulong, else long, else double, else its
      raw text; true and false give a bool; anything else its ToString(). */
  function ParseJsonElement(value: Json, fieldType: FieldType): (r: Boxed)
    ensures IsIdentifierType(fieldType) && HasUInt64(value)
            ==> r == Handle(fieldType, NumberUInt64(value.text).value)
    ensures value.String? ==> r == StringValue(value.s)
    ensures value.True? || value.False? ==> r == BoolValue(value.True?)
    ensures value.Number? && !IsIdentifierType(fieldType) ==>
              (r.ULongValue? <==> HasUInt64(value))
    ensures value.Number? ==>
              (r.LongValue? <==> !HasUInt64(value) && NumberInt64(value.text).Some?)
    ensures value.Number? ==>
              (r.DoubleValue? <==> NumberInt64(value.text).None? && !HasUInt64(value) && value.double.Some?)
    ensures value.Array? || value.Object? || value.Null? ==> r == StringValue(ToText(value))
  {
    if IsIdentifierType(fieldType) && HasUInt64(value) then
      Handle(fieldType, NumberUInt64(value.text).value)
    else
      match value
      case String(s) => StringValue(s)
      case Number(text, _, double) =>
        if NumberUInt64(text).Some? then ULongValue(NumberUInt64(text).value)
        else if NumberInt64(text).Some? then LongValue(NumberInt64(text).value)
        else if double.Some? then DoubleValue(double.value)
        else StringValue(RawText(value))
      case True => BoolValue(true)
      case False => BoolValue(false)
      case _ => StringValue(ToText(value))
  }

  /** The unboxing cast (PrototypeId)obj or (AssetId)obj of a conversion's
      result: the CLR unboxes any ulong-based identifier or a ulong; anything
      else is an InvalidCastException. */
  function CastToHandle(obj: Boxed): (r: Result<UInt64, Error>)
    ensures r.Failure? ==> r.error == InvalidCast
  {
    match obj
    case PrototypeIdValue(u) => Success(u)
    case AssetIdValue(u) => Success(u)
    case PrototypeGuidValue(u) => Success(u)
    case LocaleStringIdValue(u) => Success(u)
    case ULongValue(u) => Success(u)
    case _ => Failure(InvalidCast)
  }

  /** Converting to an identifier type and casting back succeeds exactly for
      a number that reads as ulong, and then gives that number unchanged. */
  lemma IdentifierCastRoundTrip(value: Json, t: FieldType)
    requires IsIdentifierType(t)
    ensures CastToHandle(ParseJsonElement(value, t)).Success? <==> HasUInt64(value)
    ensures HasUInt64(value) ==>
              CastToHandle(ParseJsonElement(value, t)) == Success(NumberUInt64(value.text).value)
  {
  }

  /** The declared type changes the conversion only for a number that reads
      as ulong: every other node converts as it would for any other type. */
  lemma FieldTypeMattersOnlyForHandles(value: Json, t: FieldType, other: FieldType)
    requires !HasUInt64(value)
    ensures ParseJsonElement(value, t) == ParseJsonElement(value, other)
  {
  }

  /** A number converts to the first of ulong, long, double that reads it
      exactly: a long result never reads as ulong, and a result that is text
      is the number's own text, which no integer or double reading accepts. */
  lemma NumberConversionIsExact(value: Json, t: FieldType)
    requires value.Number?
    ensures var r := ParseJsonElement(value, t);
            && (r.ULongValue? ==> NumberUInt64(value.text) == Some(r.u))
            && (r.LongValue? ==> NumberInt64(value.text) == Some(r.l) && NumberUInt64(value.text).None?)
            && (r.DoubleValue? ==> value.double == Some(r.d))
            && (r.StringValue? ==> r.s == value.text && NumberInt64(value.text).None?
                                   && value.double.None?)
  {
  }
}
