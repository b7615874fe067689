/** The integer readers the converter relies on: .NET's int.TryParse and
    ulong.TryParse (NumberStyles.Integer, with the current culture's sign
    strings taken to be '-' and '+'), the integer
    readings System.Text.Json gives a number's text (Utf8Parser, 'D' format),
    char.IsWhiteSpace, and the decimal rendering used to state round trips. */
module Numerals {
  import opened Wrappers

  const Int32Min: int := -0x8000_0000
  const Int32Max: int := 0x7FFF_FFFF
  const Int64Min: int := -0x8000_0000_0000_0000
  const Int64Max: int := 0x7FFF_FFFF_FFFF_FFFF
  const UInt64Limit: int := 0x1_0000_0000_0000_0000

  type UInt64 = x: int | 0 <= x < UInt64Limit

  predicate IsDigit(c: char) { '0' <= c <= '9' }

  predicate AllDigits(s: string) { forall i :: 0 <= i < |s| ==> IsDigit(s[i]) }

  /** The value of a run of decimal digits, most significant first. */
  function DigitsValue(s: string): nat
    requires AllDigits(s)
  {
    if s == [] then 0 else 10 * DigitsValue(s[..|s| - 1]) + (s[|s| - 1] - '0') as nat
  }

  /** White space as .NET's number parser skips it: U+0009 to U+000D and U+0020. */
  predicate IsParseWhite(c: char) { c == ' ' || '\t' <= c <= '\r' }

  /** char.IsWhiteSpace: the characters of Unicode's White_Space property. */
  predicate IsWhiteSpace(c: char)
  {
    IsParseWhite(c) || c == '\U{0085}' || c == '\U{00A0}' || c == '\U{1680}'
    || ('\U{2000}' <= c <= '\U{200A}') || c == '\U{2028}' || c == '\U{2029}'
    || c == '\U{202F}' || c == '\U{205F}' || c == '\U{3000}'
  }

  /** string.IsNullOrWhiteSpace on a non-null string. */
  predicate IsBlank(s: string) { forall i :: 0 <= i < |s| ==> IsWhiteSpace(s[i]) }

  function TrimStart(s: string): (r: string)
    ensures |r| <= |s| && r == s[|s| - |r|..]
    ensures r == [] || !IsParseWhite(r[0])
  {
    if s != [] && IsParseWhite(s[0]) then TrimStart(s[1..]) else s
  }

  function TrimEnd(s: string): (r: string)
    ensures |r| <= |s| && r == s[..|r|]
    ensures r == [] || !IsParseWhite(r[|r| - 1])
  {
    if s != [] && IsParseWhite(s[|s| - 1]) then TrimEnd(s[..|s| - 1]) else s
  }

  /** A sign and a magnitude read from text. */
  datatype Signed = Signed(negative: bool, magnitude: nat)

  /** The NumberStyles.Integer grammar: white space, an optional '+' or '-',
      one or more decimal digits, white space. */
  function IntegerStyle(s: string): Option<Signed>
  {
    var t := TrimEnd(TrimStart(s));
    if t == [] then None
    else if t[0] == '-' || t[0] == '+' then
      if |t| > 1 && AllDigits(t[1..]) then Some(Signed(t[0] == '-', DigitsValue(t[1..]))) else None
    else if AllDigits(t) then Some(Signed(false, DigitsValue(t)))
    else None
  }

  /** int.TryParse(s, out v): Some(v) when it returns true. */
  function ParseInt32(s: string): (r: Option<int>)
    ensures r.Some? ==> Int32Min <= r.value <= Int32Max
  {
    match IntegerStyle(s)
    case None => None
    case Some(Signed(negative, m)) =>
      var v: int := if negative then 0 - m else m;
      if Int32Min <= v <= Int32Max then Some(v) else None
  }

  /** ulong.TryParse(s, out v). A minus sign is accepted only before a zero
      magnitude ("-0" reads as 0). */
  function ParseUInt64(s: string): (r: Option<UInt64>)
  {
    match IntegerStyle(s)
    case None => None
    case Some(Signed(negative, m)) =>
      if negative then (if m == 0 then Some(0) else None)
      else if m < UInt64Limit then Some(m) else None
  }

  /** JsonElement.TryGetUInt64 on a number: the whole text is decimal digits
      whose value fits 64 bits unsigned. */
  function NumberUInt64(text: string): (r: Option<UInt64>)
  {
    if text != [] && AllDigits(text) && DigitsValue(text) < UInt64Limit
    then Some(DigitsValue(text)) else None
  }

  /** A signed decimal text as Utf8Parser reads it: optional '-' or '+', digits. */
  function SignedDigits(text: string): Option<int>
  {
    if text != [] && (text[0] == '-' || text[0] == '+') then
      if |text| > 1 && AllDigits(text[1..])
      then Some(if text[0] == '-' then 0 - DigitsValue(text[1..]) else DigitsValue(text[1..]))
      else None
    else if text != [] && AllDigits(text) then Some(DigitsValue(text))
    else None
  }

  /** JsonElement.TryGetInt64 on a number. */
  function NumberInt64(text: string): (r: Option<int>)
    ensures r.Some? ==> Int64Min <= r.value <= Int64Max
  {
    match SignedDigits(text)
    case Some(v) => if Int64Min <= v <= Int64Max then Some(v) else None
    case None => None
  }

  /** JsonElement.TryGetInt32 on a number (GetInt32 throws where it fails). */
  function NumberInt32(text: string): (r: Option<int>)
    ensures r.Some? ==> Int32Min <= r.value <= Int32Max
  {
    match SignedDigits(text)
    case Some(v) => if Int32Min <= v <= Int32Max then Some(v) else None
    case None => None
  }

  /** Decimal rendering, most significant digit first, no leading zeros. */
  function NatToText(n: nat): string
  {
    if n < 10 then [('0' as int + n) as char]
    else NatToText(n / 10) + [('0' as int + n % 10) as char]
  }

  function IntToText(i: int): string
  {
    if i < 0 then "-" + NatToText(-i) else NatToText(i)
  }

  lemma {:induction false} NatToTextDigits(n: nat)
    ensures NatToText(n) != [] && AllDigits(NatToText(n))
    ensures DigitsValue(NatToText(n)) == n
  {
    if n >= 10 {
      NatToTextDigits(n / 10);
      var t := NatToText(n);
      assert t[..|t| - 1] == NatToText(n / 10);
    }
  }

  /** A text that starts and ends with a digit is its own trimming. */
  lemma TrimDigitEnds(t: string)
    requires t != [] && !IsParseWhite(t[0]) && IsDigit(t[|t| - 1])
    ensures TrimEnd(TrimStart(t)) == t
  {
  }

  /** int.TryParse reads back every 32-bit integer's decimal rendering. */
  lemma ParseInt32RoundTrip(i: int)
    requires Int32Min <= i <= Int32Max
    ensures ParseInt32(IntToText(i)) == Some(i)
  {
    var m: nat := if i < 0 then -i else i;
    var d := NatToText(m);
    NatToTextDigits(m);
    var t := IntToText(i);
    assert t == if i < 0 then "-" + d else d;
    TrimDigitEnds(t);
    if i < 0 {
      assert t[1..] == d;
      assert IntegerStyle(t) == Some(Signed(true, m));
    } else {
      assert IntegerStyle(t) == Some(Signed(false, m));
    }
  }

  /** The decimal rendering of a natural number reads as that number, unsigned. */
  lemma IntegerStyleOfNatText(n: nat)
    ensures IntegerStyle(NatToText(n)) == Some(Signed(false, n))
  {
    var t := NatToText(n);
    NatToTextDigits(n);
    TrimDigitEnds(t);
    assert IsDigit(t[0]);
  }

  /** int.TryParse reads a natural number's rendering exactly when it fits. */
  lemma ParseInt32OfNatText(n: nat)
    ensures ParseInt32(NatToText(n)) == if n <= Int32Max then Some(n) else None
  {
    IntegerStyleOfNatText(n);
  }

  /** ulong.TryParse and Utf8Parser both read back a 64-bit unsigned rendering. */
  lemma UInt64RoundTrip(u: UInt64)
    ensures ParseUInt64(NatToText(u)) == Some(u)
    ensures NumberUInt64(NatToText(u)) == Some(u)
    ensures !IsBlank(NatToText(u))
  {
    NatToTextDigits(u);
    IntegerStyleOfNatText(u);
    NatTextNotBlank(u);
  }

  /** A rendering starts with a digit, which is not white space. */
  lemma NatTextNotBlank(n: nat)
    ensures !IsBlank(NatToText(n))
  {
    NatToTextDigits(n);
    var d := NatToText(n)[0];
    assert IsDigit(d);
    assert !IsWhiteSpace(d);
  }

  /** Where int.TryParse gives a non-negative value, ulong.TryParse gives the
      same value: the two readings of a text never disagree. */
  lemma Int32ReadingAgreesWithUInt64(s: string)
    requires ParseInt32(s).Some? && ParseInt32(s).value >= 0
    ensures ParseUInt64(s) == Some(ParseInt32(s).value)
  {
  }

  /** A number whose unsigned reading fits a signed 64-bit integer has the
      same signed reading. */
  lemma NumberUInt64AgreesWithInt64(text: string)
    requires NumberUInt64(text).Some? && NumberUInt64(text).value <= Int64Max
    ensures NumberInt64(text) == NumberUInt64(text)
  {
  }
}
