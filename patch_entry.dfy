/** PrototypePatchEntry and PatchEntryConverter.Read: one entry of a patch
    file, read from its JSON object. */
module PatchEntries {
  import opened Wrappers
  import opened Json
  import opened Numerals
  import opened Element
  import opened PatchPath
  import opened ArrayValues
  import opened ValueDecoder
  import opened DeferredProperties
  import PB = PrototypeBuilder

  /** A ValueBase: a SimpleValue or ArrayValue with its kind, or the deferred
      value of a Properties entry. */
  datatype ValueBase =
    | Simple(valueType: ValueType, payload: Payload)
    | Deferred(props: RawJsonPropertiesValue)

  /** The ValueType property. */
  function ValueTypeOf(v: ValueBase): ValueType
  {
    if v.Simple? then v.valueType else Properties
  }

  /** A value object stands for a decoded value: a Properties value by a
      deferred value holding its raw text, any other by a simple value with
      the same kind and payload. */
  predicate Represents(v: ValueBase, d: Decoded)
  {
    if d.payload.RawJson? then v.Deferred? && v.props.rawJson == d.payload.text
    else v == Simple(d.valueType, d.payload)
  }

  /** GetValueBase: the value object for a node of the given kind; a
      Properties value is not parsed but kept as the node's raw text. */
  method GetValueBase(node: Json, code: int, env: PB.PrototypeEnv) returns (r: Result<ValueBase, Error>)
    ensures r.Success? <==> DecodeValue(node, code, env).Success?
    ensures r.Failure? ==> r.error == DecodeValue(node, code, env).error
    ensures r.Success? ==> Represents(r.value, DecodeValue(node, code, env).value)
                           && Code(ValueTypeOf(r.value)) == code
    ensures r.Success? && r.value.Deferred? ==> fresh(r.value.props) && !r.value.props.hasParsed
  {
    var kind := KindOf(code);
    if kind.None? {
      return Failure(NotSupported(code));
    }
    var k := kind.value;
    if k == Properties {
      var deferred := new RawJsonPropertiesValue(Some(RawText(node)));
      return Success(Deferred(deferred));
    } else if k == PrototypeIdArray || k == PrototypeDataRefArray {
      var ids := ParseJsonElement(node, ParseHandle);
      if ids.Failure? {
        return Failure(ids.error);
      }
      return Success(Simple(k, Handles(ids.value)));
    } else if k == ValueType.Prototype {
      var p := PB.ParseJsonPrototype(node, env);
      if p.Failure? {
        return Failure(p.error);
      }
      return Success(Simple(k, Proto(p.value)));
    } else if k == PrototypeArray {
      var ps := ParseJsonElement(node, n => PB.BuiltPrototype(n, env));
      if ps.Failure? {
        return Failure(ps.error);
      }
      return Success(Simple(k, Protos(ps.value)));
    } else {
      var d := DecodeValue(node, code, env);
      if d.Failure? {
        return Failure(d.error);
      }
      return Success(Simple(d.value.valueType, d.value.payload));
    }
  }

  class PrototypePatchEntry {
    const enabled: bool
    const prototype: string
    const path: string
    const description: string
    const value: ValueBase
    /** The path without its last field. */
    const clearPath: string
    /** The last field, without its index. */
    const fieldName: string
    /** Whether the last field carries an index. */
    const arrayValue: bool
    /** The index, -1 where absent or unreadable. */
    const arrayIndex: int
    var patched: bool

    /** Keeps the five properties and splits the path into the container, the
        field and its index; a new entry is not yet patched. */
    constructor(enabled: bool, prototype: string, path: string, description: string, value: ValueBase)
      ensures this.enabled == enabled && this.prototype == prototype && this.path == path
      ensures this.description == description && this.value == value
      ensures PathParts(clearPath, fieldName, arrayValue, arrayIndex) == SplitPath(path)
      ensures !patched
    {
      this.enabled := enabled;
      this.prototype := prototype;
      this.path := path;
      this.description := description;
      this.value := value;
      var parts := SplitPath(path);
      clearPath := parts.clearPath;
      fieldName := parts.fieldName;
      arrayValue := parts.arrayValue;
      arrayIndex := parts.arrayIndex;
      patched := false;
    }
  }

  /** string.Replace("[]", "Array"): every "[]", scanning left to right. */
  function ReplaceArrayMarker(s: string): string
  {
    if |s| >= 2 && s[0] == '[' && s[1] == ']' then "Array" + ReplaceArrayMarker(s[2..])
    else if s == [] then []
    else [s[0]] + ReplaceArrayMarker(s[1..])
  }

  /** A text without ']' has no marker to replace. */
  lemma {:induction false} NoMarkerUnchanged(s: string)
    requires ']' !in s
    ensures ReplaceArrayMarker(s) == s
  {
    if s != [] {
      NoMarkerUnchanged(s[1..]);
    }
  }

  /** A kind name followed by "[]" reads as the name followed by "Array". */
  lemma {:induction false} MarkerSuffixReplaced(name: string)
    requires '[' !in name && ']' !in name
    ensures ReplaceArrayMarker(name + "[]") == name + "Array"
  {
    if name == [] {
      assert name + "[]" == "[]";
    } else {
      assert (name + "[]")[1..] == name[1..] + "[]";
      MarkerSuffixReplaced(name[1..]);
    }
  }

  /** The first index of s in xs. */
  function IndexOf(xs: seq<string>, s: string): (r: Option<nat>)
    ensures r.Some? <==> s in xs
    ensures r.Some? ==> r.value < |xs| && xs[r.value] == s && forall j :: 0 <= j < r.value ==> xs[j] != s
  {
    if xs == [] then None
    else if xs[0] == s then Some(0)
    else
      match IndexOf(xs[1..], s)
      case None => None
      case Some(i) => Some(i + 1)
  }

  /** Enum.Parse<ValueType>: a declared name gives its value, an integer text
      any value at all (declared or not); anything else raises. */
  function ParseValueType(s: string): (r: Result<int, Error>)
    ensures s in Names ==> r.Success? && 0 <= r.value < |Names| && Names[r.value] == s
    ensures s !in Names ==> r == (if ParseInt32(s).Some? then Success(ParseInt32(s).value) else Failure(UnknownEnumName(s)))
  {
    match IndexOf(Names, s)
    case Some(i) => Success(i)
    case None =>
      match ParseInt32(s)
      case Some(v) => Success(v)
      case None => Failure(UnknownEnumName(s))
  }

  /** Every declared name reads back as its own kind. */
  lemma NamesReadBack(k: ValueType)
    ensures ParseValueType(Names[Code(k)]) == Success(Code(k))
  {
    var i := IndexOf(Names, Names[Code(k)]).value;
    assert Names[i] == Names[Code(k)];
    DistinctNames(i, Code(k));
  }

  lemma DistinctNames(i: nat, j: nat)
    requires i < |Names| && j < |Names| && Names[i] == Names[j]
    ensures i == j
  {
  }

  /** The array aliases of the patch files: "PrototypeId[]",
      "PrototypeDataRef[]" and "Prototype[]" read as the array kinds. */
  lemma PrototypeIdAliasRead(alias: string)
    requires alias == "PrototypeId[]"
    ensures ParseValueType(ReplaceArrayMarker(alias)) == Success(Code(PrototypeIdArray))
  {
    var name := "PrototypeId";
    assert alias == name + "[]";
    AliasRead(name, PrototypeIdArray);
  }

  lemma PrototypeDataRefAliasRead(alias: string)
    requires alias == "PrototypeDataRef[]"
    ensures ParseValueType(ReplaceArrayMarker(alias)) == Success(Code(PrototypeDataRefArray))
  {
    var name := "PrototypeDataRef";
    assert alias == name + "[]";
    AliasRead(name, PrototypeDataRefArray);
  }

  lemma PrototypeAliasRead(alias: string)
    requires alias == "Prototype[]"
    ensures ParseValueType(ReplaceArrayMarker(alias)) == Success(Code(PrototypeArray))
  {
    var name := "Prototype";
    assert alias == name + "[]";
    AliasRead(name, PrototypeArray);
  }

  /** name + "[]" reads as the kind named name + "Array". */
  lemma AliasRead(name: string, k: ValueType)
    requires '[' !in name && ']' !in name && name + "Array" == Names[Code(k)]
    ensures ParseValueType(ReplaceArrayMarker(name + "[]")) == Success(Code(k))
  {
    MarkerSuffixReplaced(name);
    NamesReadBack(k);
  }

  /** The five header fields of an entry, read before its value. */
  datatype Header = Header(valueCode: int, enabled: bool, prototype: string, path: string, description: string)

  /** The fields an entry is read into. */
  datatype EntryFields = EntryFields(header: Header, decoded: Decoded)

  /** GetProperty(name).GetString() ?? string.Empty. */
  function StringProperty(root: Json, name: string): (r: Result<string, Error>)
    ensures root.Object? && r.Failure? && GetProperty(root, name).Failure? ==> r.error == KeyNotFound(name)
    ensures GetProperty(root, name).Success? && GetProperty(root, name).value.String?
            ==> r == Success(GetProperty(root, name).value.s)
    ensures GetProperty(root, name).Success? && GetProperty(root, name).value.Null? ==> r == Success("")
    ensures (GetProperty(root, name).Success? && !GetProperty(root, name).value.String?
             && !GetProperty(root, name).value.Null?) ==> r == Failure(WrongValueKind)
  {
    var node :- GetProperty(root, name);
    var s :- GetString(node);
    Success(if s.Some? then s.value else "")
  }

  /** The ValueType member, "[]" read as "Array", parsed as a kind. */
  function ValueCodeOf(root: Json): Result<int, Error>
  {
    var valueTypeString :- StringProperty(root, "ValueType");
    ParseValueType(ReplaceArrayMarker(valueTypeString))
  }

  /** The Enabled member as a boolean. */
  function EnabledOf(root: Json): Result<bool, Error>
  {
    var enabledNode :- GetProperty(root, "Enabled");
    GetBoolean(enabledNode)
  }

  /** The header in Read's order: the value type, Enabled, Prototype, Path and
      Description; the first failure is the exception. */
  function HeaderOf(root: Json): Result<Header, Error>
  {
    var valueCode :- ValueCodeOf(root);
    var enabled :- EnabledOf(root);
    var prototype :- StringProperty(root, "Prototype");
    var path :- StringProperty(root, "Path");
    var description :- StringProperty(root, "Description");
    Success(Header(valueCode, enabled, prototype, path, description))
  }

  /** What Read reads: the header, then the value decoded as its kind. */
  function EntryOf(root: Json, env: PB.PrototypeEnv): Result<EntryFields, Error>
  {
    var header :- HeaderOf(root);
    var valueNode :- GetProperty(root, "Value");
    var decoded :- DecodeValue(valueNode, header.valueCode, env);
    Success(EntryFields(header, decoded))
  }

  /** PatchEntryConverter.Read: the entry of a JSON object, flagged as patched
      already when it holds properties. */
  method Read(root: Json, env: PB.PrototypeEnv) returns (r: Result<PrototypePatchEntry, Error>)
    ensures r.Success? <==> EntryOf(root, env).Success?
    ensures r.Failure? ==> r.error == EntryOf(root, env).error
    ensures r.Success? ==>
              var e := EntryOf(root, env).value;
              && fresh(r.value)
              && r.value.enabled == e.header.enabled && r.value.prototype == e.header.prototype
              && r.value.path == e.header.path && r.value.description == e.header.description
              && Represents(r.value.value, e.decoded)
              && PathParts(r.value.clearPath, r.value.fieldName, r.value.arrayValue, r.value.arrayIndex)
                 == SplitPath(e.header.path)
              && r.value.patched == (e.header.valueCode == Code(Properties))
  {
    var header :- HeaderOf(root);
    var valueNode :- GetProperty(root, "Value");
    var value :- GetValueBase(valueNode, header.valueCode, env);
    var valueCode := header.valueCode;
    var enabled, prototype, path, description := header.enabled, header.prototype, header.path, header.description;
    var entry := new PrototypePatchEntry(enabled, prototype, path, description, value);
    if valueCode == Code(Properties) {
      entry.patched := true;
    }
    return Success(entry);
  }

  /** An entry read carries a declared kind and a payload of that kind's
      shape. */
  lemma EntryKindDeclared(root: Json, env: PB.PrototypeEnv)
    requires EntryOf(root, env).Success?
    ensures var e := EntryOf(root, env).value;
            && 0 <= e.header.valueCode < |Kinds| && Code(e.decoded.valueType) == e.header.valueCode
            && PayloadMatches(e.decoded.valueType, e.decoded.payload)
  {
    EntryDecodesValue(root, env);
    var e := EntryOf(root, env).value;
    DecodedKindMatches(GetProperty(root, "Value").value, e.header.valueCode, env);
  }

  lemma EntryDecodesValue(root: Json, env: PB.PrototypeEnv)
    requires EntryOf(root, env).Success?
    ensures var e := EntryOf(root, env).value;
            GetProperty(root, "Value").Success?
            && DecodeValue(GetProperty(root, "Value").value, e.header.valueCode, env) == Success(e.decoded)
  {
  }

  /** Every one of the six keys is required: an object without one of them
      is not an entry. */
  lemma MissingKeyFails(root: Json, env: PB.PrototypeEnv, key: string)
    requires key == "ValueType" || key == "Enabled" || key == "Prototype"
             || key == "Path" || key == "Description" || key == "Value"
    requires root.Object? && forall i :: 0 <= i < |root.members| ==> root.members[i].name != key
    ensures EntryOf(root, env).Failure?
  {
    if EntryOf(root, env).Success? {
      EntryNeedsKeys(root, env);
    }
  }

  /** An entry read has found each of the six keys. */
  lemma EntryNeedsKeys(root: Json, env: PB.PrototypeEnv)
    requires EntryOf(root, env).Success?
    ensures GetProperty(root, "ValueType").Success? && GetProperty(root, "Enabled").Success?
    ensures GetProperty(root, "Prototype").Success? && GetProperty(root, "Path").Success?
    ensures GetProperty(root, "Description").Success? && GetProperty(root, "Value").Success?
  {
    HeaderNeedsKeys(root);
  }

  lemma HeaderNeedsKeys(root: Json)
    requires HeaderOf(root).Success?
    ensures GetProperty(root, "ValueType").Success? && GetProperty(root, "Enabled").Success?
    ensures GetProperty(root, "Prototype").Success? && GetProperty(root, "Path").Success?
    ensures GetProperty(root, "Description").Success?
  {
    assert ValueCodeOf(root).Success? && EnabledOf(root).Success?;
    assert StringProperty(root, "Prototype").Success?;
    assert StringProperty(root, "Path").Success?;
    assert StringProperty(root, "Description").Success?;
  }

  /** A null Prototype, Path or Description reads as the empty string. */
  lemma NullStringsEmpty(root: Json, name: string)
    requires GetProperty(root, name) == Success(Null)
    ensures StringProperty(root, name) == Success("")
  {
  }
}
