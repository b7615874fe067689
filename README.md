# Prototype patch entries

A model of MHServerEmu's prototype patch entries: the JSON records of a
patch file that name a prototype, a field path inside it and a new value.
It covers how one entry is read (`PatchEntryConverter.Read`), how its path
is split into the container path, the field name and an array index (the
`PrototypePatchEntry` constructor), how its value is decoded according to
one of fifteen declared kinds (`GetValueBase`, `SimpleValue`, `ArrayValue`,
`ParseJsonVector3`, `ParseJsonPrototype`, the coercion `ParseJsonElement`),
and how a `Properties` value is kept as raw JSON and parsed on first use
into a property collection (`RawJsonPropertiesValue`, `ParseJsonProperties`,
`ParseJsonPropertyId`, `ParseJsonCurveId`, `ParseJsonPropertyValue`).

JSON is a datatype with the value kinds of RFC 8259 section 3. A number
keeps its text (the integer readings of `TryGetUInt64`, `TryGetInt64` and
`GetInt32` are computed from it) and carries its single- and
double-precision readings as opaque values. The exceptions the converter
raises are the `Failure` cases of a `Result`. The game database (class
field tables, the property info table, property and curve names, the
`Property.ToParam` encodings, `JsonDocument.Parse`) is passed in as
function-valued parameters.

Modules, one per file: `Wrappers` (Option, Result), `Json` (the document
and its raw text), `Numerals` (`int.TryParse`, `ulong.TryParse` and the
number readings), `Element` (the `JsonElement` accessors), `PatchPath`,
`Coercion`, `ArrayValues`, `PrototypeBuilder`, `ValueDecoder`,
`PropertyTypes`, `PropertyKeys`, `PropertyValues`, `DeferredProperties`
and `PatchEntries`.

Where the loops of the source fill a buffer or a collection step by step
(`ArrayValue.ParseJsonElement`, `ParseJsonPrototype`,
`ParseJsonPropertyId`, `ParseJsonProperties`), the model has a method with
that loop, proved equal to a function that states the result; the
properties are proved about those functions.

Behaviour a reader might not expect, where the model follows the code:

- The array index of a path is read by `int.TryParse`, so it may be
  negative and may be padded with white space: `Foo[ -2 ]` has index -2.
- An Asset parameter given as a quoted number up to int.MaxValue is the
  enumerant itself, exactly as a bare number is, not an asset handle.
- `RawJsonPropertiesValue` takes no lock; two first calls may both parse.
- The converter's `Write` is unimplemented, so no encode/decode round trip
  of an entry exists to be proved.

## Model

| member | source | states |
|---|---|---|
| PatchPath.LastIndexOf | src/MHServerEmu.Games/GameData/PatchManager/PrototypePatchEntry.cs:40 | -1 exactly when the character is absent; otherwise an index holding it with no occurrence after it |
| PatchPath.SplitAtLastDot | src/MHServerEmu.Games/GameData/PatchManager/PrototypePatchEntry.cs:40-50 | without a '.', the container is empty and the field text is the whole path; otherwise container + "." + field text is the path and the field text holds no '.' |
| PatchPath.BracketIndex | src/MHServerEmu.Games/GameData/PatchManager/PrototypePatchEntry.cs:58-64 | the index is not -1 only when a ']' follows the '[' and the text between reads as an int32, and then it is that value; such a text always gives its value |
| PatchPath.SplitBracket | src/MHServerEmu.Games/GameData/PatchManager/PrototypePatchEntry.cs:52-67 | a field without '[' is kept with no index; with one, the array flag is set and the name is the prefix before the last '[' |
| PatchPath.SplitPath | src/MHServerEmu.Games/GameData/PatchManager/PrototypePatchEntry.cs:40-67 | the array flag is set exactly when the field text has a '[', and an entry without it has index -1 |
| PatchPath.SplitPathParts | src/MHServerEmu.Games/GameData/PatchManager/PrototypePatchEntry.cs:40-67 | the four parts of any path: the dot split and its reassembly, the field name unchanged without '[' and truncated at the last '[' with one, whether or not the index parses |
| PatchPath.SplitPathIndex | src/MHServerEmu.Games/GameData/PatchManager/PrototypePatchEntry.cs:58-64 | an index other than -1 comes from a ']' after the name's '[' and the int32 text between them |
| PatchPath.SplitPathIndexRoundTrip | src/MHServerEmu.Games/GameData/PatchManager/PrototypePatchEntry.cs:40-67 | container + "." + name + "[" + i + "]" splits back into the container, the name, the array flag and every int32 i |
| PatchPath.SplitAtDot | src/MHServerEmu.Games/GameData/PatchManager/PrototypePatchEntry.cs:40-50 | a dot-free field text after a '.' is split off intact |
| PatchPath.SplitAtBracket | src/MHServerEmu.Games/GameData/PatchManager/PrototypePatchEntry.cs:52-67 | name + "[" + text + "]" with no brackets in name or text splits into the name, the array flag and the int32 reading of text (-1 when it does not read) |
| PatchPath.LastIndexOfSuffix | src/MHServerEmu.Games/GameData/PatchManager/PrototypePatchEntry.cs:40 | the last occurrence in s + t lies in t when t has one, and is the last in s otherwise |
| PatchPath.SplitPathIndexExample | src/MHServerEmu.Games/GameData/PatchManager/PrototypePatchEntry.cs:40-67 | "Foo.Bar[3]" gives container "Foo", field "Bar", index 3 |
| PatchPath.SplitPathUnparsedIndexExample | src/MHServerEmu.Games/GameData/PatchManager/PrototypePatchEntry.cs:52-67 | "Foo.Bar[x]" is an array entry with index -1 |
| PatchPath.SplitPathDotInsideBracketsExample | src/MHServerEmu.Games/GameData/PatchManager/PrototypePatchEntry.cs:40-50 | "A[1.5]" splits at the dot inside the brackets, before any bracket analysis |
| PatchPath.SplitPathNegativeIndexExample | src/MHServerEmu.Games/GameData/PatchManager/PrototypePatchEntry.cs:58-64 | "Foo[ -2 ]" has index -2 |
| PatchPath.SplitPathBracketsReversedExample | src/MHServerEmu.Games/GameData/PatchManager/PrototypePatchEntry.cs:55-66 | "Foo]x[" is an array entry named "Foo]x" with index -1 |
| Json.StringRawTextReadsBack | src/MHServerEmu.Games/GameData/PatchManager/PrototypePatchEntry.cs:118 | the raw text kept for a string value is the string between quotes, and reading its escapes back gives the original string |
| Numerals.ParseInt32RoundTrip | src/MHServerEmu.Games/GameData/PatchManager/PrototypePatchEntry.cs:63 | int.TryParse reads back the decimal rendering of every int32 |
| Numerals.IntegerStyleOfNatText | src/MHServerEmu.Games/GameData/PatchManager/PrototypePatchEntry.cs:63 | the rendering of a natural number reads as that number without sign |
| Numerals.ParseInt32OfNatText | src/MHServerEmu.Games/GameData/PatchManager/PrototypePatchEntry.cs:274 | int.TryParse reads a natural number's rendering exactly when it is at most int.MaxValue |
| Numerals.UInt64RoundTrip | src/MHServerEmu.Games/GameData/PatchManager/PrototypePatchEntry.cs:220-229 | ulong.TryParse and TryGetUInt64 read back every ulong's rendering, which is not blank |
| Numerals.NatTextNotBlank | src/MHServerEmu.Games/GameData/PatchManager/PrototypePatchEntry.cs:226 | a decimal rendering is never blank, so string.IsNullOrWhiteSpace lets it through |
| Numerals.Int32ReadingAgreesWithUInt64 | src/MHServerEmu.Games/GameData/PatchManager/PrototypePatchEntry.cs:274-278 | where int.TryParse gives a non-negative value, ulong.TryParse gives the same |
| Numerals.NumberUInt64AgreesWithInt64 | src/MHServerEmu.Games/GameData/PatchManager/PrototypePatchEntry.cs:372-375 | a number whose ulong reading fits a long has the same long reading |
| Element.GetString | src/MHServerEmu.Games/GameData/PatchManager/PrototypePatchEntry.cs:81 | succeeds exactly on strings and null, giving the string itself for a string and null for null; anything else raises WrongValueKind |
| Element.GetBoolean | src/MHServerEmu.Games/GameData/PatchManager/PrototypePatchEntry.cs:86 | succeeds exactly on true and false, giving which |
| Element.GetUInt64 | src/MHServerEmu.Games/GameData/PatchManager/PrototypePatchEntry.cs:138 | succeeds exactly on numbers with a ulong reading, giving it |
| Element.GetInt32 | src/MHServerEmu.Games/GameData/PatchManager/PrototypePatchEntry.cs:105 | succeeds exactly on numbers with an int32 reading, giving that reading; a number without one raises Format |
| Element.GetProperty | src/MHServerEmu.Games/GameData/PatchManager/PrototypePatchEntry.cs:81-90 | succeeds exactly on an object with a member of that name, giving the value of the last such member; a missing name raises KeyNotFound, a non-object WrongValueKind |
| Element.LastMember | src/MHServerEmu.Games/GameData/PatchManager/PrototypePatchEntry.cs:81-90 | finds a member of the name exactly when one exists, and it is the last such member |
| Element.LastMemberIndex | src/MHServerEmu.Games/GameData/PatchManager/PrototypePatchEntry.cs:81-90 | -1 exactly when no member has the name; otherwise a member with the name and none after it |
| Element.EnumerateArray | src/MHServerEmu.Games/GameData/PatchManager/PrototypePatchEntry.cs:214 | succeeds exactly on arrays, giving their elements |
| Element.EnumerateObject | src/MHServerEmu.Games/GameData/PatchManager/PrototypePatchEntry.cs:175 | succeeds exactly on objects, giving their members |
| Element.TryGetInt64 | src/MHServerEmu.Games/GameData/PatchManager/PrototypePatchEntry.cs:288 | on a number gives its long reading or false (None); on a non-number it raises rather than returning false |
| Element.TryGetUInt64 | src/MHServerEmu.Games/GameData/PatchManager/PrototypePatchEntry.cs:220 | on a number gives its ulong reading or false (None); on a non-number it raises |
| Coercion.ParseJsonElement | src/MHServerEmu.Games/GameData/PatchManager/PrototypePatchEntry.cs:342-386 | the priority order: identifier type with a ulong number, then string, then ulong, long, double, raw text, then bool, then ToString() |
| Coercion.CastToHandle | src/MHServerEmu.Games/GameData/PatchManager/PrototypePatchEntry.cs:323-328 | the only failure of the unboxing cast is InvalidCast |
| Coercion.IdentifierCastRoundTrip | src/MHServerEmu.Games/GameData/PatchManager/PrototypePatchEntry.cs:344-365 | coercing to an identifier type and casting back succeeds exactly for a ulong number, giving it unchanged |
| Coercion.FieldTypeMattersOnlyForHandles | src/MHServerEmu.Games/GameData/PatchManager/PrototypePatchEntry.cs:342-386 | for any node without a ulong reading the declared type makes no difference |
| Coercion.NumberConversionIsExact | src/MHServerEmu.Games/GameData/PatchManager/PrototypePatchEntry.cs:369-377 | a number becomes the first reading that accepts it; raw text only when none does |
| ArrayValues.ParseAllShape | src/MHServerEmu.Games/GameData/PatchManager/PrototypePatchEntry.cs:477-478 | the parse of all elements succeeds exactly when every element parses, with one result per element in order |
| ArrayValues.ParseAllStopsAtFailure | src/MHServerEmu.Games/GameData/PatchManager/PrototypePatchEntry.cs:477-478 | the first failing element's exception is the result |
| ArrayValues.ParseArrayShape | src/MHServerEmu.Games/GameData/PatchManager/PrototypePatchEntry.cs:468-481 | a non-array is NotArray, an empty array is empty, otherwise result[i] is the parse of element i |
| ArrayValues.ParseJsonElement | src/MHServerEmu.Games/GameData/PatchManager/PrototypePatchEntry.cs:468-481 | the loop filling result[i] computes the array parse |
| PrototypeBuilder.ParseJsonPrototype | src/MHServerEmu.Games/GameData/PatchManager/PrototypePatchEntry.cs:135-165 | the member loop computes the built prototype |
| PrototypeBuilder.UnconvertedFieldInherited | src/MHServerEmu.Games/GameData/PatchManager/PrototypePatchEntry.cs:142-161 | a field no member converts keeps its inherited value or stays absent |
| PrototypeBuilder.LastConversionWins | src/MHServerEmu.Games/GameData/PatchManager/PrototypePatchEntry.cs:145-161 | the last member whose conversion of a field succeeds decides its value; later members for that field whose conversion fails are skipped |
| PrototypeBuilder.BuildFailsOnlyOnHeader | src/MHServerEmu.Games/GameData/PatchManager/PrototypePatchEntry.cs:138-143 | the build fails exactly when ParentDataRef is missing, not a ulong, or names no class; the prototype's parent is that reference |
| ValueDecoder.Code | src/MHServerEmu.Games/GameData/PatchManager/PrototypePatchEntry.cs:395-412 | each kind's underlying value is its declaration position |
| ValueDecoder.KindOf | src/MHServerEmu.Games/GameData/PatchManager/PrototypePatchEntry.cs:395-412 | a value names a kind exactly when it is 0 to 14, and then the kind with that code |
| ValueDecoder.ParseJsonVector3 | src/MHServerEmu.Games/GameData/PatchManager/PrototypePatchEntry.cs:123-133 | succeeds exactly on arrays of three singles; a non-array raises NotArray, another length NotVector3 |
| ValueDecoder.DecodedKindMatches | src/MHServerEmu.Games/GameData/PatchManager/PrototypePatchEntry.cs:98-121 | every decoded value has the declared kind and that kind's payload shape; an undeclared kind raises NotSupported |
| ValueDecoder.IdentifierKindsCarryNumber | src/MHServerEmu.Games/GameData/PatchManager/PrototypePatchEntry.cs:107-110 | the identifier kinds succeed exactly on ulong numbers and carry them unchanged |
| ValueDecoder.IdentifierArrayKinds | src/MHServerEmu.Games/GameData/PatchManager/PrototypePatchEntry.cs:111-112 | the identifier array kinds succeed exactly on arrays of ulong numbers, one handle per element |
| ValueDecoder.PrototypeArrayKind | src/MHServerEmu.Games/GameData/PatchManager/PrototypePatchEntry.cs:114 | a prototype array succeeds exactly when every element builds, one prototype per element |
| ValueDecoder.TextKindsTakeStringOrNull | src/MHServerEmu.Games/GameData/PatchManager/PrototypePatchEntry.cs:102-106 | String and Enum accept a string or null and nothing else |
| ValueDecoder.PropertiesKindDeferred | src/MHServerEmu.Games/GameData/PatchManager/PrototypePatchEntry.cs:116-118 | a Properties value never fails at load time and keeps the node's raw text |
| PropertyTypes.TruncateToInt32 | src/MHServerEmu.Games/GameData/PatchManager/PrototypePatchEntry.cs:289 | (int) of a long is within int32, congruent modulo 2^32, and the identity within range |
| PropertyTypes.Int32ToParam | src/MHServerEmu.Games/GameData/PatchManager/PrototypePatchEntry.cs:263-275 | the 64-bit parameter is congruent to the int32 modulo 2^64 and its top 33 bits copy the sign: negative exactly when at least 2^64 - 2^31 |
| PropertyKeys.SlotsVisited | src/MHServerEmu.Games/GameData/PatchManager/PrototypePatchEntry.cs:248-251 | the loop visits exactly min(paramCount, 4) slots, none for a count of zero or less |
| PropertyKeys.ParseJsonPropertyId | src/MHServerEmu.Games/GameData/PatchManager/PrototypePatchEntry.cs:239-298 | the loop over the four-slot buffer computes the property key |
| PropertyKeys.ParamsAfterStopsAtFailure | src/MHServerEmu.Games/GameData/PatchManager/PrototypePatchEntry.cs:251-295 | an exception in a slot is the result, whatever the later slots |
| PropertyKeys.ParamsAfterSlots | src/MHServerEmu.Games/GameData/PatchManager/PrototypePatchEntry.cs:246-295 | after k slots, each slot is its parameter's value when visited, present and readable, and its default otherwise |
| PropertyKeys.PropertyIdSlots | src/MHServerEmu.Games/GameData/PatchManager/PrototypePatchEntry.cs:241-297 | no parameters give a key without slots; otherwise a non-array raises, and only slots below min(paramCount, 4, array length) can differ from the defaults |
| PropertyKeys.AssetStringMatchesNumber | src/MHServerEmu.Games/GameData/PatchManager/PrototypePatchEntry.cs:261-280 | a quoted decimal Asset parameter reads as the bare number |
| PropertyKeys.AssetOfUnsignedText | src/MHServerEmu.Games/GameData/PatchManager/PrototypePatchEntry.cs:261-280 | a text read alike by the ulong readers, and by int.TryParse when it fits, is the same Asset parameter quoted or bare |
| PropertyKeys.AssetNumberText | src/MHServerEmu.Games/GameData/PatchManager/PrototypePatchEntry.cs:261-267 | an Asset number up to int.MaxValue is the enumerant, above it the asset handle |
| PropertyKeys.AssetUnreadableKeepsDefault | src/MHServerEmu.Games/GameData/PatchManager/PrototypePatchEntry.cs:259-281 | a string read by neither parser, or a number without ulong reading, keeps the slot's default |
| PropertyKeys.IntegerParamTruncates | src/MHServerEmu.Games/GameData/PatchManager/PrototypePatchEntry.cs:289-292 | an Integer parameter keeps the low 32 bits sign-extended; 2^32 + 1 becomes 1 |
| PropertyValues.ParseJsonCurveId | src/MHServerEmu.Games/GameData/PatchManager/PrototypePatchEntry.cs:209-237 | raises only for a parameterised property whose value is not an array; otherwise the curve of the last array element, CurveId.Invalid for an empty array, or the curve of the value itself without parameters |
| PropertyValues.CurveOfElement | src/MHServerEmu.Games/GameData/PatchManager/PrototypePatchEntry.cs:218-236 | a ulong number is that id and any other number Invalid; a non-blank string is its ulong reading or else the curve of that name; blank strings and other nodes are Invalid |
| PropertyValues.ParseJsonPropertyValue | src/MHServerEmu.Games/GameData/PatchManager/PrototypePatchEntry.cs:300-306 | a parameterised property raises on a non-array and IndexOutOfRange on an empty array and is otherwise read from the last element; without parameters the value itself is read |
| PropertyValues.ValueOfElement | src/MHServerEmu.Games/GameData/PatchManager/PrototypePatchEntry.cs:308-339 | Integer and Real take a number's long or narrowed double reading, keep the default when it has none and raise on a non-number; Boolean reads true/false; Prototype and Asset take a ulong number as the handle and raise InvalidCast otherwise; Curve and other types raise |
| PropertyValues.ParseJsonProperties | src/MHServerEmu.Games/GameData/PatchManager/PrototypePatchEntry.cs:167-207 | the member loop computes the collection of the properties object |
| PropertyValues.ApplyPropertiesStopsAtFailure | src/MHServerEmu.Games/GameData/PatchManager/PrototypePatchEntry.cs:175-204 | a member that raises ends the parse with its exception |
| PropertyValues.CurveStringMatchesNumber | src/MHServerEmu.Games/GameData/PatchManager/PrototypePatchEntry.cs:218-232 | a quoted ulong curve id reads as the bare number |
| PropertyValues.CurveOfUnsignedText | src/MHServerEmu.Games/GameData/PatchManager/PrototypePatchEntry.cs:218-232 | a text both ulong readers accept names the same curve quoted or bare |
| PropertyValues.CurveFromLastElement | src/MHServerEmu.Games/GameData/PatchManager/PrototypePatchEntry.cs:211-216 | a parameterised curve is read from the last array element alone |
| PropertyValues.CurveOfUnparameterised | src/MHServerEmu.Games/GameData/PatchManager/PrototypePatchEntry.cs:211-216 | without parameters the curve is read from the value itself |
| PropertyValues.NoCurveName | src/MHServerEmu.Games/GameData/PatchManager/PrototypePatchEntry.cs:221-236 | a blank name or a value neither number nor string gives CurveId.Invalid, without lookup |
| PropertyValues.EmptyArrayAsymmetry | src/MHServerEmu.Games/GameData/PatchManager/PrototypePatchEntry.cs:302-306 | on an empty parameter array the curve reader gives CurveId.Invalid while the value reader raises IndexOutOfRange |
| PropertyValues.ApplyPropertyKeepsWellFormed | src/MHServerEmu.Games/GameData/PatchManager/PrototypePatchEntry.cs:177-203 | one member keeps the collection well formed |
| PropertyValues.PropertiesWellFormed | src/MHServerEmu.Games/GameData/PatchManager/PrototypePatchEntry.cs:175-204 | values sit only under non-curve keys, curves only under curve keys with the index property and a non-Invalid curve unless the default is Invalid; in the model's two maps no key holds both |
| PropertyValues.UnknownNameFails | src/MHServerEmu.Games/GameData/PatchManager/PrototypePatchEntry.cs:177 | any member that is not a property name makes the parse fail |
| PropertyValues.UndescribedMemberSkipped | src/MHServerEmu.Games/GameData/PatchManager/PrototypePatchEntry.cs:178-184 | a member whose property the info table does not describe leaves the collection unchanged |
| PropertyValues.UndescribedPropertiesSkipped | src/MHServerEmu.Games/GameData/PatchManager/PrototypePatchEntry.cs:178-184 | removing any member whose property the info table does not describe leaves the result unchanged |
| PropertyValues.LastMemberWins | src/MHServerEmu.Games/GameData/PatchManager/PrototypePatchEntry.cs:186-203 | the value under a key is the one read from the last member storing a value under it, whatever members after it that skip, store curves or use other keys |
| PropertyValues.LastCurveWins | src/MHServerEmu.Games/GameData/PatchManager/PrototypePatchEntry.cs:186-199 | the curve under a key is the one read from the last member storing a curve under it, with Invalid replaced by the property's default, and with the property's index property |
| DeferredProperties.ParsedText | src/MHServerEmu.Games/GameData/PatchManager/PrototypePatchEntry.cs:439-443 | without the info table the parse raises NotReady |
| DeferredProperties.RawJsonPropertiesValue.constructor | src/MHServerEmu.Games/GameData/PatchManager/PrototypePatchEntry.cs:429-432 | a null text becomes "{}"; the value starts unparsed |
| DeferredProperties.RawJsonPropertiesValue.GetValue | src/MHServerEmu.Games/GameData/PatchManager/PrototypePatchEntry.cs:434-446 | a parsed value returns its collection unchanged; otherwise the parse result, remembered only on success, nothing changed on failure |
| DeferredProperties.GetValueTwice | src/MHServerEmu.Games/GameData/PatchManager/PrototypePatchEntry.cs:434-446 | once a read succeeds, the next returns the same collection whatever the environment |
| DeferredProperties.DeferredMatchesDirect | src/MHServerEmu.Games/GameData/PatchManager/PrototypePatchEntry.cs:442-443 | assuming JsonDocument.Parse reads GetRawText's output back as the same node (a requires, not proved here), parsing the kept raw text gives what parsing the object directly gives |
| DeferredProperties.NullTextGivesEmpty | src/MHServerEmu.Games/GameData/PatchManager/PrototypePatchEntry.cs:431 | the "{}" of a null text gives an empty collection |
| PatchEntries.GetValueBase | src/MHServerEmu.Games/GameData/PatchManager/PrototypePatchEntry.cs:98-121 | succeeds exactly when the decode does; the value has the declared kind; Properties gets a fresh unparsed deferred value holding the raw text |
| PatchEntries.PrototypePatchEntry.constructor | src/MHServerEmu.Games/GameData/PatchManager/PrototypePatchEntry.cs:32-71 | keeps the five properties, splits the path as SplitPath does, starts unpatched |
| PatchEntries.NoMarkerUnchanged | src/MHServerEmu.Games/GameData/PatchManager/PrototypePatchEntry.cs:82 | a text without ']' is unchanged by the replacement |
| PatchEntries.MarkerSuffixReplaced | src/MHServerEmu.Games/GameData/PatchManager/PrototypePatchEntry.cs:82 | a bracket-free name + "[]" becomes name + "Array" |
| PatchEntries.ParseValueType | src/MHServerEmu.Games/GameData/PatchManager/PrototypePatchEntry.cs:83 | a declared name gives its kind, otherwise an int32 text gives its value, otherwise UnknownEnumName |
| PatchEntries.NamesReadBack | src/MHServerEmu.Games/GameData/PatchManager/PrototypePatchEntry.cs:83 | every declared name reads back as its own kind |
| PatchEntries.DistinctNames | src/MHServerEmu.Games/GameData/PatchManager/PrototypePatchEntry.cs:395-412 | the fifteen names are distinct |
| PatchEntries.AliasRead | src/MHServerEmu.Games/GameData/PatchManager/PrototypePatchEntry.cs:82-83 | name + "[]" reads as the kind named name + "Array" |
| PatchEntries.PrototypeIdAliasRead | src/MHServerEmu.Games/GameData/PatchManager/PrototypePatchEntry.cs:82-83 | "PrototypeId[]" reads as PrototypeIdArray |
| PatchEntries.PrototypeDataRefAliasRead | src/MHServerEmu.Games/GameData/PatchManager/PrototypePatchEntry.cs:82-83 | "PrototypeDataRef[]" reads as PrototypeDataRefArray |
| PatchEntries.PrototypeAliasRead | src/MHServerEmu.Games/GameData/PatchManager/PrototypePatchEntry.cs:82-83 | "Prototype[]" reads as PrototypeArray |
| PatchEntries.StringProperty | src/MHServerEmu.Games/GameData/PatchManager/PrototypePatchEntry.cs:87-89 | a String member reads as its string and null as ""; a missing key raises KeyNotFound and a member of another kind WrongValueKind |
| PatchEntries.Read | src/MHServerEmu.Games/GameData/PatchManager/PrototypePatchEntry.cs:77-96 | succeeds exactly when the entry reads; a fresh entry with the read fields, split path and value, patched exactly when the kind is Properties |
| PatchEntries.EntryDecodesValue | src/MHServerEmu.Games/GameData/PatchManager/PrototypePatchEntry.cs:90 | the entry's value is the decode of its Value member as the declared kind |
| PatchEntries.EntryKindDeclared | src/MHServerEmu.Games/GameData/PatchManager/PrototypePatchEntry.cs:83-90 | an entry read has a declared kind and a payload of that kind's shape |
| PatchEntries.MissingKeyFails | src/MHServerEmu.Games/GameData/PatchManager/PrototypePatchEntry.cs:81-90 | an object missing any of the six keys is not an entry |
| PatchEntries.EntryNeedsKeys | src/MHServerEmu.Games/GameData/PatchManager/PrototypePatchEntry.cs:81-90 | an entry read has found all six keys |
| PatchEntries.HeaderNeedsKeys | src/MHServerEmu.Games/GameData/PatchManager/PrototypePatchEntry.cs:81-89 | a header read has found the five header keys |
| PatchEntries.NullStringsEmpty | src/MHServerEmu.Games/GameData/PatchManager/PrototypePatchEntry.cs:87-89 | a null string member reads as "" |

## Left out

- Floating point: the single and double readings of a number are opaque values carried by the node, and the narrowing `(float)` of a double is a parameter; Vector3 components and Float values are not computed.
- `Enum.Parse`: only exact declared names and integer texts; white space around a name, comma-separated flag lists and case options are not modelled.
- `int.TryParse` and `ulong.TryParse` read with the current culture's sign strings; the model assumes the culture uses '-' and '+', as the invariant culture does.
- .NET's acceptance of trailing NUL characters by `int.TryParse` and `ulong.TryParse` is not modelled.
- Json.RawText: `GetRawText` returns the original text of the node; the model renders it compactly, so only the content and not the formatting of the stored text is faithful.
- `JsonDocument.ParseValue` and `JsonDocument.Parse` are not modelled: a document is already a tree, and the parse of the stored text is a parameter.
- Reflection in `ParseJsonPrototype` (`AllocatePrototype`, `CopyPrototypeDataRefFields`, `GetProperty`/`SetValue`, `PrototypePatchManager.ConvertValue`) is a field table and a conversion function passed in; a conversion that throws is one that returns None.
- PropertyCollection is two maps (plain values and curve entries); its change notifications, flags and the removal of default values are not modelled.
- `SetCurveProperty`'s final `true` argument, which updates the property's value from the curve, is not modelled: in the model a curve key holds no plain value.
- The bit encodings of `Property.ToParam` and of the property values are parameters or constructors; `AsCurveId` reads the 64 bits of a stored value only for the value kinds the model carries.
- `PrototypePatchEntry` instances and `RawJsonPropertiesValue` are objects; the parsed collection is a value, so the identity of the returned object is not modelled, only its equality.
- Logging, `Write` (unimplemented in the source), and concurrency (there is no lock) are left out.
- PatchEntries.GetValueBase: the PrototypeArray element parser is the specification function of `ParseJsonPrototype`, because a method cannot be passed as a parser.
