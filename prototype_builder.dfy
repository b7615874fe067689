/** ParseJsonPrototype: a new prototype of the class named by ParentDataRef,
    starting from its parent's fields, with each listed field converted and
    assigned on its own. The content database is a parameter. */
module PrototypeBuilder {
  import opened Wrappers
  import opened Json
  import opened Numerals
  import opened Element
  import opened Coercion

  /** What the content database supplies: for a prototype reference, the
      settable fields of its class with their declared types (None when the
      reference names no class); the fields a prototype allocated for that
      parent starts with (CopyPrototypeDataRefFields); and the field
      conversion PrototypePatchManager.ConvertValue followed by SetValue, None
      where either throws. */
  datatype PrototypeEnv = PrototypeEnv(
    classFields: UInt64 -> Option<map<string, FieldType>>,
    inheritedFields: UInt64 -> map<string, Boxed>,
    convert: (Boxed, FieldType) -> Option<Boxed>)

  /** A prototype: its parent reference and the values of its fields. */
  datatype Prototype = Prototype(parentDataRef: UInt64, fields: map<string, Boxed>)

  const ParentDataRefName: string := "ParentDataRef"

  /** One member of the patch object applied to the field values: skipped
      when it is ParentDataRef, when the class has no such field, or when the
      conversion fails (the exception is caught and logged). */
  function ApplyMember(fields: map<string, Boxed>, classFields: map<string, FieldType>, m: Member,
                       env: PrototypeEnv): map<string, Boxed>
  {
    if m.name == ParentDataRefName || m.name !in classFields then fields
    else
      var fieldType := classFields[m.name];
      match env.convert(ParseJsonElement(m.value, fieldType), fieldType)
      case Some(v) => fields[m.name := v]
      case None => fields
  }

  /** The members applied in order. */
  function ApplyMembers(fields: map<string, Boxed>, classFields: map<string, FieldType>,
                        members: seq<Member>, env: PrototypeEnv): map<string, Boxed>
    decreases |members|
  {
    if members == [] then fields
    else ApplyMember(ApplyMembers(fields, classFields, members[..|members| - 1], env),
                     classFields, members[|members| - 1], env)
  }

  /** The conversion of member m to its field's type, when m names a field
      that can be patched and the conversion succeeds. */
  function Converted(m: Member, classFields: map<string, FieldType>, env: PrototypeEnv): Option<Boxed>
  {
    if m.name == ParentDataRefName || m.name !in classFields then None
    else env.convert(ParseJsonElement(m.value, classFields[m.name]), classFields[m.name])
  }

  /** The prototype ParseJsonPrototype returns, or the exception it throws. */
  function BuiltPrototype(node: Json, env: PrototypeEnv): Result<Prototype, Error>
  {
    var parent :- GetProperty(node, ParentDataRefName);
    var reference :- GetUInt64(parent);
    match env.classFields(reference)
    case None => Failure(UnknownPrototypeClass(reference))
    case Some(classFields) =>
      Success(Prototype(reference, ApplyMembers(env.inheritedFields(reference), classFields, node.members, env)))
  }

  /** ParseJsonPrototype: allocates the prototype for the parent reference,
      then assigns the members one at a time. */
  method ParseJsonPrototype(node: Json, env: PrototypeEnv) returns (r: Result<Prototype, Error>)
    ensures r == BuiltPrototype(node, env)
  {
    var parent := GetProperty(node, ParentDataRefName);
    if parent.Failure? {
      return Failure(parent.error);
    }
    var referenceType := GetUInt64(parent.value);
    if referenceType.Failure? {
      return Failure(referenceType.error);
    }
    var reference := referenceType.value;
    var classType := env.classFields(reference);
    if classType.None? {
      return Failure(UnknownPrototypeClass(reference));
    }
    var classFields := classType.value;
    var fields := env.inheritedFields(reference);
    var members := node.members;
    var i := 0;
    while i < |members|
      invariant 0 <= i <= |members|
      invariant fields == ApplyMembers(env.inheritedFields(reference), classFields, members[..i], env)
    {
      var property := members[i];
      if property.name != ParentDataRefName && property.name in classFields {
        var fieldType := classFields[property.name];
        var element := ParseJsonElement(property.value, fieldType);
        var convertedValue := env.convert(element, fieldType);
        if convertedValue.Some? {
          fields := fields[property.name := convertedValue.value];
        }
      }
      assert members[..i + 1][..i] == members[..i];
      i := i + 1;
    }
    assert members[..i] == members;
    return Success(Prototype(reference, fields));
  }

  /** A field that no member converts successfully keeps the value the
      prototype inherited (or stays absent). */
  lemma {:induction false} UnconvertedFieldInherited(fields: map<string, Boxed>, classFields: map<string, FieldType>,
                                                     members: seq<Member>, env: PrototypeEnv, name: string)
    requires forall i :: 0 <= i < |members| && members[i].name == name ==> Converted(members[i], classFields, env).None?
    ensures var r := ApplyMembers(fields, classFields, members, env);
            (name in r <==> name in fields) && (name in fields ==> r[name] == fields[name])
    decreases |members|
  {
    if members != [] {
      var init := members[..|members| - 1];
      assert forall i :: 0 <= i < |init| ==> init[i] == members[i];
      UnconvertedFieldInherited(fields, classFields, init, env, name);
    }
  }

  /** The last member naming a field that converts successfully decides the
      field's value, whatever came before it: later members for the same
      field whose conversion fails are skipped. */
  lemma {:induction false} LastConversionWins(fields: map<string, Boxed>, classFields: map<string, FieldType>,
                                              members: seq<Member>, env: PrototypeEnv, k: nat, v: Boxed)
    requires k < |members| && Converted(members[k], classFields, env) == Some(v)
    requires forall j :: k < j < |members| && members[j].name == members[k].name
                         ==> Converted(members[j], classFields, env).None?
    ensures var r := ApplyMembers(fields, classFields, members, env);
            members[k].name in r && r[members[k].name] == v
    decreases |members|
  {
    var init := members[..|members| - 1];
    if k < |members| - 1 {
      assert forall i :: 0 <= i < |init| ==> init[i] == members[i];
      LastConversionWins(fields, classFields, init, env, k, v);
    }
  }

  /** One bad field never voids the prototype: the build fails only when the
      node is not an object, has no ParentDataRef that reads as ulong, or that
      reference names no class; then every field keeps its inherited value
      unless a member for it converts. */
  lemma BuildFailsOnlyOnHeader(node: Json, env: PrototypeEnv)
    ensures BuiltPrototype(node, env).Success? <==>
              node.Object? && GetProperty(node, ParentDataRefName).Success?
              && HasUInt64(GetProperty(node, ParentDataRefName).value)
              && env.classFields(NumberUInt64(GetProperty(node, ParentDataRefName).value.text).value).Some?
    ensures BuiltPrototype(node, env).Success? ==>
              BuiltPrototype(node, env).value.parentDataRef
                == NumberUInt64(GetProperty(node, ParentDataRefName).value.text).value
  {
  }
}
