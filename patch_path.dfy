/** How a patch entry's Path is taken apart once, at construction: the
    container path before the last '.', the field name after it, and an
    optional "[index]" suffix on the field. */
module PatchPath {
  import opened Wrappers
  import opened Numerals

  /** string.LastIndexOf(c): the position of the last c, -1 when there is none. */
  function LastIndexOf(s: string, c: char): (r: int)
    ensures -1 <= r < |s|
    ensures r == -1 <==> c !in s
    ensures r >= 0 ==> s[r] == c && forall k :: r < k < |s| ==> s[k] != c
  {
    if s == [] then -1
    else if s[|s| - 1] == c then |s| - 1
    else
      assert c in s ==> c in s[..|s| - 1];
      LastIndexOf(s[..|s| - 1], c)
  }

  /** A position holding c with no c after it is the last index of c. */
  lemma LastIndexOfAt(s: string, c: char, k: nat)
    requires k < |s| && s[k] == c
    requires forall j :: k < j < |s| ==> s[j] != c
    ensures LastIndexOf(s, c) == k
  {
  }

  /** The parts derived from a path: СlearPath, FieldName, ArrayValue, ArrayIndex. */
  datatype PathParts = PathParts(clearPath: string, fieldName: string, arrayValue: bool, arrayIndex: int)

  /** The split at the last '.': the container path and the field text after it. */
  function SplitAtLastDot(path: string): (r: (string, string))
    ensures '.' !in path ==> r == ("", path)
    ensures '.' in path ==> r.0 + "." + r.1 == path && '.' !in r.1
  {
    var dot := LastIndexOf(path, '.');
    if dot == -1 then ("", path)
    else
      assert path == path[..dot] + "." + path[dot + 1..];
      (path[..dot], path[dot + 1..])
  }

  /** The index text between the last '[' and the last ']' of a field, read by
      int.TryParse; -1 when the ']' does not follow the '[' or the text does
      not parse. */
  function BracketIndex(field: string, open: nat): (r: int)
    requires open < |field|
    ensures r != -1 ==> open < LastIndexOf(field, ']')
                        && ParseInt32(field[open + 1..LastIndexOf(field, ']')]) == Some(r)
    ensures open < LastIndexOf(field, ']') && ParseInt32(field[open + 1..LastIndexOf(field, ']')]).Some?
            ==> r == ParseInt32(field[open + 1..LastIndexOf(field, ']')]).value
  {
    var close := LastIndexOf(field, ']');
    if close > open then
      match ParseInt32(field[open + 1..close])
      case Some(v) => v
      case None => -1
    else -1
  }

  /** The bracket analysis of a field text: the name, whether a '[' was
      present, and the parsed index (-1 when absent or unparsable). */
  function SplitBracket(field: string): (r: (string, bool, int))
    ensures '[' !in field ==> r == (field, false, -1)
    ensures '[' in field ==> r.1 && |r.0| < |field| && field[..|r.0|] == r.0
                             && field[|r.0|] == '[' && '[' !in field[|r.0| + 1..]
    ensures '[' in field ==> r.2 == BracketIndex(field, |r.0|)
  {
    var open := LastIndexOf(field, '[');
    if open == -1 then (field, false, -1)
    else (field[..open], true, BracketIndex(field, open))
  }

  /** The PrototypePatchEntry constructor's derivation of the four path parts. */
  function SplitPath(path: string): (r: PathParts)
    ensures r.arrayValue <==> '[' in SplitAtLastDot(path).1
    ensures !r.arrayValue ==> r.arrayIndex == -1
  {
    var (clearPath, field) := SplitAtLastDot(path);
    var (name, isArray, index) := SplitBracket(field);
    PathParts(clearPath, name, isArray, index)
  }

  /** Without a '.', the container path is empty and the whole path is the
      field text; with one, the path is the container path, a '.', and a field
      text that holds no '.'. A field text without '[' is the field name as it
      is; with one, the field name is the text before the last '['. */
  lemma SplitPathParts(path: string)
    ensures var r := SplitPath(path);
            var field := if '.' in path then path[|r.clearPath| + 1..] else path;
            && ('.' !in path ==> r.clearPath == "")
            && ('.' in path ==> path == r.clearPath + "." + field && '.' !in field)
            && ('[' !in field ==> !r.arrayValue && r.arrayIndex == -1 && r.fieldName == field)
            && ('[' in field ==> r.arrayValue && field[..|r.fieldName|] == r.fieldName
                                 && |r.fieldName| < |field| && field[|r.fieldName|] == '['
                                 && '[' !in field[|r.fieldName| + 1..])
  {
    var (clearPath, field) := SplitAtLastDot(path);
    if '.' in path {
      assert path[|clearPath| + 1..] == field;
    }
  }

  /** The index is set only when a ']' follows the last '[' and the text
      between them reads as a 32-bit integer, and then it is that integer. */
  lemma SplitPathIndex(path: string)
    ensures var r := SplitPath(path);
            var field := SplitAtLastDot(path).1;
            r.arrayIndex != -1 ==>
              r.arrayValue && |r.fieldName| < LastIndexOf(field, ']')
              && ParseInt32(field[|r.fieldName| + 1..LastIndexOf(field, ']')]) == Some(r.arrayIndex)
  {
  }

  /** A field text without '.' after the last '.' is split off intact. */
  lemma SplitAtDot(container: string, field: string)
    requires '.' !in field
    ensures SplitAtLastDot(container + "." + field) == (container, field)
  {
    var path := container + "." + field;
    assert forall j :: |container| < j < |path| ==> path[j] == field[j - |container| - 1];
    LastIndexOfAt(path, '.', |container|);
    assert path[..|container|] == container && path[|container| + 1..] == field;
  }

  /** A name without '[' followed by "[text]", where text holds no bracket,
      has that name and the int.TryParse reading of text as its index. */
  lemma SplitAtBracket(name: string, text: string)
    requires '[' !in name && '[' !in text && ']' !in text
    ensures SplitBracket(name + "[" + text + "]")
            == (name, true, match ParseInt32(text) case Some(v) => v case None => -1)
  {
    var field := name + "[" + text + "]";
    assert forall j :: |name| < j < |field| - 1 ==> field[j] == text[j - |name| - 1];
    LastIndexOfAt(field, '[', |name|);
    LastIndexOfAt(field, ']', |field| - 1);
    assert field[..|name|] == name && field[|name| + 1..|field| - 1] == text;
  }

  /** A field name followed by the decimal rendering of any 32-bit index in
      brackets is taken apart into exactly that container, name and index. */
  lemma SplitPathIndexRoundTrip(container: string, name: string, i: int)
    requires '.' !in name && '[' !in name
    requires Int32Min <= i <= Int32Max
    ensures SplitPath(container + "." + name + "[" + IntToText(i) + "]")
            == PathParts(container, name, true, i)
  {
    var digits := IntToText(i);
    var field := name + "[" + digits + "]";
    IntToTextPunctuation(i);
    assert '.' !in field by {
      assert forall k :: 0 <= k < |field| ==> field[k] == if k < |name| then name[k]
        else if k == |name| then '[' else if k < |name| + 1 + |digits| then digits[k - |name| - 1] else ']';
    }
    assert container + "." + name + "[" + digits + "]" == container + "." + field;
    SplitAtDot(container, field);
    SplitAtBracket(name, digits);
    ParseInt32RoundTrip(i);
  }

  /** The decimal rendering of an integer holds no '.', '[' or ']'. */
  lemma IntToTextPunctuation(i: int)
    ensures '.' !in IntToText(i) && '[' !in IntToText(i) && ']' !in IntToText(i)
  {
    var m: nat := if i < 0 then -i else i;
    NatToTextDigits(m);
    assert forall k :: 0 <= k < |NatToText(m)| ==> IsDigit(NatToText(m)[k]);
  }

  /** The last c of a + b lies in b when b holds one, and is the last c of a otherwise. */
  lemma {:induction false} LastIndexOfSuffix(a: string, b: string, c: char)
    ensures c in b ==> LastIndexOf(a + b, c) == |a| + LastIndexOf(b, c)
    ensures c !in b ==> LastIndexOf(a + b, c) == LastIndexOf(a, c)
    decreases |b|
  {
    if b != [] {
      assert (a + b)[..|a + b| - 1] == a + b[..|b| - 1];
      LastIndexOfSuffix(a, b[..|b| - 1], c);
      if b[|b| - 1] != c {
        assert c in b ==> c in b[..|b| - 1];
      }
    } else {
      assert a + b == a;
    }
  }

  /** SplitPath is the bracket analysis of the text after the last dot. */
  lemma SplitPathFrom(path: string, container: string, field: string, bracket: (string, bool, int))
    requires SplitAtLastDot(path) == (container, field)
    requires SplitBracket(field) == bracket
    ensures SplitPath(path) == PathParts(container, bracket.0, bracket.1, bracket.2)
  {
  }

  /** "Foo.Bar[3]": container "Foo", array field "Bar", index 3. */
  lemma SplitPathIndexExample(path: string)
    requires path == "Foo.Bar[3]"
    ensures SplitPath(path) == PathParts("Foo", "Bar", true, 3)
  {
    var container, name, index := "Foo", "Bar", "3";
    assert IntToText(3) == index;
    assert path == container + "." + name + "[" + index + "]";
    SplitPathIndexRoundTrip(container, name, 3);
  }

  /** "Foo.Bar[x]": still an array target, but the index stays -1. */
  lemma SplitPathUnparsedIndexExample()
    ensures SplitPath("Foo.Bar[x]") == PathParts("Foo", "Bar", true, -1)
  {
    SplitAtDot("Foo", "Bar[x]");
    assert "Foo.Bar[x]" == "Foo" + "." + "Bar[x]";
    BarXBracket("Bar[x]");
    SplitPathFrom("Foo.Bar[x]", "Foo", "Bar[x]", ("Bar", true, -1));
  }

  lemma BarXBracket(field: string)
    requires field == "Bar[x]"
    ensures SplitBracket(field) == ("Bar", true, -1)
  {
    var name, text := "Bar", "x";
    assert field == name + "[" + text + "]";
    SplitAtBracket(name, text);
    NotAnIndex(text);
  }

  lemma NotAnIndex(text: string)
    requires text == "x"
    ensures ParseInt32(text).None?
  {
    assert TrimStart(text) == text;
    assert TrimEnd(text) == text;
    assert !AllDigits(text);
  }

  /** "A[1.5]" splits at the dot before brackets are looked at, so the field
      text "5]" holds no '[' and is not an array target. */
  lemma SplitPathDotInsideBracketsExample()
    ensures SplitPath("A[1.5]") == PathParts("A[1", "5]", false, -1)
  {
    SplitAtDot("A[1", "5]");
    assert "A[1.5]" == "A[1" + "." + "5]";
    SplitPathFrom("A[1.5]", "A[1", "5]", ("5]", false, -1));
  }

  /** "Foo[ -2 ]": int.TryParse takes the sign and the surrounding white
      space, so the index is -2. */
  lemma SplitPathNegativeIndexExample()
    ensures SplitPath("Foo[ -2 ]") == PathParts("", "Foo", true, -2)
  {
    assert SplitAtLastDot("Foo[ -2 ]") == ("", "Foo[ -2 ]");
    NegativeTwoBracket("Foo[ -2 ]");
    SplitPathFrom("Foo[ -2 ]", "", "Foo[ -2 ]", ("Foo", true, -2));
  }

  lemma NegativeTwoBracket(field: string)
    requires field == "Foo[ -2 ]"
    ensures SplitBracket(field) == ("Foo", true, -2)
  {
    var name, text := "Foo", " -2 ";
    assert field == name + "[" + text + "]";
    PaddedNegativeTwoField(name, text);
  }

  lemma PaddedNegativeTwoField(name: string, text: string)
    requires name == "Foo" && text == " -2 "
    ensures SplitBracket(name + "[" + text + "]") == (name, true, -2)
  {
    SplitAtBracket(name, text);
    PaddedNegativeTwo();
  }

  lemma PaddedNegativeTwo()
    ensures ParseInt32(" -2 ") == Some(-2)
  {
    assert TrimStart(" -2 ") == "-2 ";
    assert TrimEnd("-2 ") == "-2";
    assert "-2"[1..] == "2";
    assert DigitsValue("2") == 2;
    assert IntegerStyle(" -2 ") == Some(Signed(true, 2));
  }

  /** "Foo]x[": the ']' comes before the '[', so no index is read, yet the
      field is still an array target named "Foo]x". */
  lemma SplitPathBracketsReversedExample()
    ensures SplitPath("Foo]x[") == PathParts("", "Foo]x", true, -1)
  {
    assert SplitAtLastDot("Foo]x[") == ("", "Foo]x[");
    ReversedBrackets();
    SplitPathFrom("Foo]x[", "", "Foo]x[", ("Foo]x", true, -1));
  }

  lemma ReversedBrackets()
    ensures SplitBracket("Foo]x[") == ("Foo]x", true, -1)
  {
    assert LastIndexOf("Foo]x[", '[') == 5;
    assert LastIndexOf("Foo]x[", ']') == 3;
    assert "Foo]x["[..5] == "Foo]x";
  }
}
