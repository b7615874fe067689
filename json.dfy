/** The JSON document model the patch converter reads: the seven value kinds of
    section 3 of RFC 8259, as System.Text.Json's JsonElement exposes them. */
module Json {
  import opened Wrappers

  /** A floating-point value produced by the JSON reader's own conversion of a
      number's text (GetSingle, TryGetDouble). Its IEEE bit pattern is carried
      as is; floating-point arithmetic is not modelled. */
  datatype Float = Float(bits: nat)

  /** A JSON value. A number keeps its source text, from which its integer
      readings are computed, and what the reader's float conversions give for it
      (None where the text does not fit a finite single/double). Object members
      keep their order and may repeat a name. */
  datatype Json =
    | Number(text: string, single: Option<Float>, double: Option<Float>)
    | String(s: string)
    | True
    | False
    | Array(items: seq<Json>)
    | Object(members: seq<Member>)
    | Null

  datatype Member = Member(name: string, value: Json)

  /** The text with '"' and '\' escaped, as it stands between quotes. */
  function Escape(s: string): string
  {
    if s == [] then []
    else (if s[0] == '"' || s[0] == '\\' then ['\\', s[0]] else [s[0]]) + Escape(s[1..])
  }

  /** The characters a JSON reader takes from an escaped text: a '\' stands
      for the character after it. */
  function Unescape(t: string): string
  {
    if t == [] then []
    else if t[0] == '\\' && |t| >= 2 then [t[1]] + Unescape(t[2..])
    else [t[0]] + Unescape(t[1..])
  }

  /** An escaped text reads back as the original. */
  lemma {:induction false} EscapeReadsBack(s: string)
    ensures Unescape(Escape(s)) == s
  {
    if s != [] {
      EscapeReadsBack(s[1..]);
      var rest := Escape(s[1..]);
      if s[0] == '"' || s[0] == '\\' {
        assert (['\\', s[0]] + rest)[2..] == rest;
      } else {
        assert ([s[0]] + rest)[1..] == rest;
      }
    }
  }

  /** The raw text of a string node is the escaped string between quotes, and
      reads back as that string. */
  lemma StringRawTextReadsBack(s: string)
    ensures var t := RawText(String(s));
            |t| >= 2 && t[0] == '"' && t[|t| - 1] == '"' && Unescape(t[1..|t| - 1]) == s
  {
    var t := RawText(String(s));
    assert t[1..|t| - 1] == Escape(s);
    EscapeReadsBack(s);
  }

  /** JsonElement.GetRawText: the node as JSON text (written compactly). */
  function RawText(node: Json): string
    decreases node
  {
    match node
    case Number(text, _, _) => text
    case String(s) => "\"" + Escape(s) + "\""
    case True => "true"
    case False => "false"
    case Null => "null"
    case Array(items) => "[" + RawItems(node, items) + "]"
    case Object(members) => "{" + RawMembers(node, members) + "}"
  }

  function RawItems(parent: Json, items: seq<Json>): string
    requires forall i :: 0 <= i < |items| ==> items[i] < parent
    decreases parent, |items|
  {
    if items == [] then ""
    else RawText(items[0]) + (if |items| == 1 then "" else "," + RawItems(parent, items[1..]))
  }

  function RawMembers(parent: Json, members: seq<Member>): string
    requires forall i :: 0 <= i < |members| ==> members[i].value < parent
    decreases parent, |members|
  {
    if members == [] then ""
    else
      "\"" + Escape(members[0].name) + "\":" + RawText(members[0].value)
      + (if |members| == 1 then "" else "," + RawMembers(parent, members[1..]))
  }

  /** JsonElement.ToString: the string itself for a string, "True"/"False" for
      the literals, the empty string for null, the raw text otherwise. */
  function ToText(node: Json): string
  {
    match node
    case String(s) => s
    case True => "True"
    case False => "False"
    case Null => ""
    case _ => RawText(node)
  }
}
