/** RawJsonPropertiesValue: the value of a Properties entry, kept as raw JSON
    text at load time and parsed into a property collection on first use. */
module DeferredProperties {
  import opened Wrappers
  import opened Json
  import opened Element
  import opened PropertyTypes
  import opened PropertyValues

  /** What parsing the stored text gives: NotReady while the info table is
      missing, the document's parse error, or the properties of its root. */
  function ParsedText(rawJson: string, env: PropertyEnv): (r: Result<PropertyCollection, Error>)
    ensures env.infoTable.None? ==> r == Failure(NotReady)
  {
    if env.infoTable.None? then Failure(NotReady)
    else
      var root :- env.parseDocument(rawJson);
      PropertiesOf(root, env)
  }

  class RawJsonPropertiesValue {
    /** The raw JSON text, "{}" when constructed from null. */
    const rawJson: string
    var parsed: PropertyCollection
    var hasParsed: bool

    constructor(raw: Option<string>)
      ensures rawJson == (if raw.Some? then raw.value else "{}")
      ensures !hasParsed
    {
      rawJson := if raw.Some? then raw.value else "{}";
      parsed := EmptyCollection;
      hasParsed := false;
    }

    /** GetValue: the memoized collection once one parse has succeeded; before
        that, a parse of the text that is remembered only when it succeeds. */
    method GetValue(env: PropertyEnv) returns (r: Result<PropertyCollection, Error>)
      modifies this
      ensures old(hasParsed) ==> r == Success(old(parsed)) && unchanged(this)
      ensures !old(hasParsed) ==> r == ParsedText(rawJson, env)
      ensures !old(hasParsed) && r.Success? ==> hasParsed && parsed == r.value
      ensures !old(hasParsed) && r.Failure? ==> unchanged(this)
    {
      if hasParsed {
        return Success(parsed);
      }
      if env.infoTable.None? {
        return Failure(NotReady);
      }
      var doc := env.parseDocument(rawJson);
      if doc.Failure? {
        return Failure(doc.error);
      }
      var properties := ParseJsonProperties(doc.value, env);
      if properties.Failure? {
        return Failure(properties.error);
      }
      parsed := properties.value;
      hasParsed := true;
      return Success(parsed);
    }
  }

  /** Two reads in a row give the same collection, whatever the environment
      of the second: once parsed, the value no longer depends on the game
      database. */
  method GetValueTwice(v: RawJsonPropertiesValue, first: PropertyEnv, second: PropertyEnv)
    returns (a: Result<PropertyCollection, Error>, b: Result<PropertyCollection, Error>)
    modifies v
    ensures a.Success? ==> b == a
    ensures !old(v.hasParsed) ==> a == ParsedText(v.rawJson, first)
  {
    a := v.GetValue(first);
    b := v.GetValue(second);
  }

  /** Parsing the kept raw text of a properties object gives what parsing the
      object itself gives, when the document reader reads that text back as
      the object. */
  lemma DeferredMatchesDirect(node: Json, env: PropertyEnv)
    requires env.parseDocument(RawText(node)) == Success(node)
    ensures ParsedText(RawText(node), env) == PropertiesOf(node, env)
  {
  }

  /** The text an entry stores when the value was null reads as an empty
      object, and so gives an empty collection. */
  lemma NullTextGivesEmpty(env: PropertyEnv)
    requires env.infoTable.Some?
    requires env.parseDocument("{}") == Success(Object([]))
    ensures ParsedText("{}", env) == Success(EmptyCollection)
  {
  }
}
