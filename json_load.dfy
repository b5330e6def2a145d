/**
  `json.loads(text)`, following the scanner of CPython's `json` package:
  whitespace is space, tab, LF and CR; strings are strict (no raw control
  characters); `\uXXXX` escapes join surrogate pairs; objects keep the first
  position and the last value of a repeated key, as a dict does.

  A float is kept as its literal text. The one decoded value the model
  cannot hold is a string with an unpaired surrogate escape, which is an
  error here.
*/
module JsonLoad {
  import opened Wrappers
  import opened DateFormat
  import opened Json

  datatype LoadError =
    | UnexpectedBom
    | ExpectingValue
    | ExtraData
    | UnterminatedString
    | InvalidControlCharacter
    | InvalidEscape
    | ExpectingDelimiter
    | ExpectingPropertyName
    | ExpectingColon
    | LoneSurrogate   // decodes in Python, but to a string the model cannot hold

  predicate IsWs(c: char) {
    c == ' ' || c == '\t' || c == '\n' || c == '\r'
  }

  function SkipWs(s: string): (r: string)
    ensures |r| <= |s|
    ensures r == [] || !IsWs(r[0])
    ensures s == [] || !IsWs(s[0]) ==> r == s
  {
    if s != [] && IsWs(s[0]) then SkipWs(s[1..]) else s
  }

  predicate IsHighSurrogate(u: int) {
    0xD800 <= u <= 0xDBFF
  }

  predicate IsLowSurrogate(u: int) {
    0xDC00 <= u <= 0xDFFF
  }

  /** The surrogate pair `hi`, `lo` as one character. */
  function JoinSurrogates(hi: int, lo: int): (c: char)
    requires IsHighSurrogate(hi) && IsLowSurrogate(lo)
    ensures c as int == 0x10000 + (hi - 0xD800) * 0x400 + (lo - 0xDC00)
  {
    (0x10000 + (hi - 0xD800) * 0x400 + (lo - 0xDC00)) as char
  }

  /** One backslash escape inside a string: the character it stands for and its length. */
  function ScanEscape(s: string): (r: Result<(char, nat), LoadError>)
    requires |s| >= 1 && s[0] == '\\'
    ensures r.Ok? ==> 2 <= r.value.1 <= |s|
  {
    if |s| < 2 then Err(UnterminatedString)
    else if s[1] == '"' then Ok(('"', 2))
    else if s[1] == '\\' then Ok(('\\', 2))
    else if s[1] == '/' then Ok(('/', 2))
    else if s[1] == 'b' then Ok((8 as char, 2))
    else if s[1] == 'f' then Ok((12 as char, 2))
    else if s[1] == 'n' then Ok(('\n', 2))
    else if s[1] == 'r' then Ok(('\r', 2))
    else if s[1] == 't' then Ok(('\t', 2))
    else if s[1] != 'u' || !IsHex4(s[2..]) then Err(InvalidEscape)
    else ScanUnicodeEscape(s)
  }

  /** A `\uXXXX` escape, joined with a second one when it is the high half of a surrogate pair. */
  function ScanUnicodeEscape(s: string): (r: Result<(char, nat), LoadError>)
    requires |s| >= 6 && s[0] == '\\' && s[1] == 'u' && IsHex4(s[2..])
    ensures r.Ok? ==> r.value.1 == 6 || r.value.1 == 12
    ensures r.Ok? ==> r.value.1 <= |s|
  {
    var u := Hex4Value(s[2..]);
    if IsHighSurrogate(u) then
      if |s| >= 12 && s[6] == '\\' && s[7] == 'u' && IsHex4(s[8..]) && IsLowSurrogate(Hex4Value(s[8..])) then
        Ok((JoinSurrogates(u, Hex4Value(s[8..])), 12))
      else
        Err(LoneSurrogate)
    else if IsLowSurrogate(u) then Err(LoneSurrogate)
    else Ok((u as char, 6))
  }

  /** `scanstring`: the text after an opening quote; the decoded string and what follows the closing quote. */
  function ScanString(s: string): (r: Result<(string, string), LoadError>)
    ensures r.Ok? ==> |r.value.1| < |s|
    decreases |s|
  {
    if s == [] then Err(UnterminatedString)
    else if s[0] == '"' then Ok(([], s[1..]))
    else if s[0] == '\\' then
      var e :- ScanEscape(s);
      var t :- ScanString(s[e.1..]);
      Ok(([e.0] + t.0, t.1))
    else if s[0] < ' ' then Err(InvalidControlCharacter)
    else
      var t :- ScanString(s[1..]);
      Ok(([s[0]] + t.0, t.1))
  }

  /** Length of the run of digits at the start of `s`. */
  function DigitRun(s: string): (k: nat)
    ensures k <= |s| && (forall i :: 0 <= i < k ==> IsDigit(s[i]))
    ensures k < |s| ==> !IsDigit(s[k])
  {
    if s != [] && IsDigit(s[0]) then 1 + DigitRun(s[1..]) else 0
  }

  function DigitsValue(s: string): nat
    requires forall i :: 0 <= i < |s| ==> IsDigit(s[i])
  {
    if s == [] then 0 else 10 * DigitsValue(s[..|s| - 1]) + DigitValue(s[|s| - 1])
  }

  /** Length of the `(\.\d+)?` part of a number. */
  function FractionLength(s: string): (k: nat)
    ensures k <= |s|
    ensures k == 0 <==> !(|s| >= 2 && s[0] == '.' && IsDigit(s[1]))
  {
    if |s| >= 2 && s[0] == '.' && IsDigit(s[1]) then 1 + DigitRun(s[1..]) else 0
  }

  /** Length of the `([eE][-+]?\d+)?` part of a number; without a digit the `e` is not taken. */
  function ExponentLength(s: string): (k: nat)
    ensures k <= |s|
    ensures k > 0 ==> s[0] == 'e' || s[0] == 'E'
    ensures k == 0 <== s == [] || (s[0] != 'e' && s[0] != 'E')
  {
    if |s| >= 2 && (s[0] == 'e' || s[0] == 'E') then
      var sign := if s[1] == '+' || s[1] == '-' then 1 else 0;
      var digits := DigitRun(s[1 + sign..]);
      if digits > 0 then 1 + sign + digits else 0
    else 0
  }

  /**
    The number matcher `-?(0|[1-9]\d*)(\.\d+)?([eE][-+]?\d+)?`: an int
    without fraction and exponent, a float otherwise.
  */
  function ScanNumber(s: string): (r: Result<(Json, string), LoadError>)
    ensures r.Ok? ==> |r.value.1| < |s|
  {
    var neg := s != [] && s[0] == '-';
    var t := if neg then s[1..] else s;
    if t == [] || !IsDigit(t[0]) then Err(ExpectingValue)
    else
      var k := if t[0] == '0' then 1 else DigitRun(t);
      var f := FractionLength(t[k..]);
      var e := ExponentLength(t[k + f..]);
      if f == 0 && e == 0 then
        var v: int := DigitsValue(t[..k]);
        Ok((Number(if neg then -v else v), t[k..]))
      else
        var n := |s| - |t| + k + f + e;
        Ok((Float(s[..n]), s[n..]))
  }

  predicate StartsWith(s: string, prefix: string) {
    |prefix| <= |s| && s[..|prefix|] == prefix
  }

  /** `scan_once`: one value at the very start of `s` (no whitespace skipped). */
  function ScanOnce(s: string): (r: Result<(Json, string), LoadError>)
    ensures r.Ok? ==> |r.value.1| < |s|
    decreases |s|, 0
  {
    if s == [] then Err(ExpectingValue)
    else if s[0] == '"' then
      var t :- ScanString(s[1..]);
      Ok((Str(t.0), t.1))
    else if s[0] == '{' then ParseObject(s[1..])
    else if s[0] == '[' then ParseArray(s[1..])
    else if StartsWith(s, "null") then Ok((Null, s[4..]))
    else if StartsWith(s, "true") then Ok((Bool(true), s[4..]))
    else if StartsWith(s, "false") then Ok((Bool(false), s[5..]))
    else if StartsWith(s, "NaN") then Ok((Float("NaN"), s[3..]))
    else if StartsWith(s, "Infinity") then Ok((Float("Infinity"), s[8..]))
    else if StartsWith(s, "-Infinity") then Ok((Float("-Infinity"), s[9..]))
    else ScanNumber(s)
  }

  /** `_parse_array`: the text after `[`. */
  function ParseArray(s: string): (r: Result<(Json, string), LoadError>)
    ensures r.Ok? ==> |r.value.1| < |s|
    decreases |s|, 2
  {
    var t := SkipWs(s);
    if t != [] && t[0] == ']' then Ok((Array([]), t[1..]))
    else
      var p :- ParseElements(t);
      Ok((Array(p.0), p.1))
  }

  /** The items of a non-empty array, from one item to the closing `]`. */
  function ParseElements(s: string): (r: Result<(seq<Json>, string), LoadError>)
    ensures r.Ok? ==> |r.value.1| < |s|
    decreases |s|, 1
  {
    var p :- ScanOnce(s);
    var u := SkipWs(p.1);
    if u != [] && u[0] == ']' then Ok(([p.0], u[1..]))
    else if u != [] && u[0] == ',' then
      var q :- ParseElements(SkipWs(u[1..]));
      Ok(([p.0] + q.0, q.1))
    else Err(ExpectingDelimiter)
  }

  /** `_parse_object`: the text after `{`. */
  function ParseObject(s: string): (r: Result<(Json, string), LoadError>)
    ensures r.Ok? ==> |r.value.1| < |s|
    decreases |s|, 2
  {
    var t := SkipWs(s);
    if t != [] && t[0] == '}' then Ok((Object([]), t[1..]))
    else
      var p :- ParseMembers(t);
      Ok((Object(DictOf(p.0)), p.1))
  }

  /** The key/value pairs of a non-empty object, in text order, up to the closing `}`. */
  function ParseMembers(s: string): (r: Result<(seq<(string, Json)>, string), LoadError>)
    ensures r.Ok? ==> |r.value.1| < |s|
    decreases |s|, 1
  {
    if s == [] || s[0] != '"' then Err(ExpectingPropertyName)
    else
      var k :- ScanString(s[1..]);
      var u := SkipWs(k.1);
      if u == [] || u[0] != ':' then Err(ExpectingColon)
      else
        var v :- ScanOnce(SkipWs(u[1..]));
        var w := SkipWs(v.1);
        if w != [] && w[0] == '}' then Ok(([(k.0, v.0)], w[1..]))
        else if w != [] && w[0] == ',' then
          var q :- ParseMembers(SkipWs(w[1..]));
          Ok(([(k.0, v.0)] + q.0, q.1))
        else Err(ExpectingDelimiter)
  }

  /** `dict[key] = value`: a new key goes last, a known key keeps its place and takes the new value. */
  function Insert(members: seq<(string, Json)>, key: string, value: Json): (r: seq<(string, Json)>)
    ensures FindKey(members, key).None? ==> r == members + [(key, value)]
    ensures FindKey(members, key).Some? ==> r == members[FindKey(members, key).value := (key, value)]
  {
    match FindKey(members, key)
    case None => members + [(key, value)]
    case Some(i) => members[i := (key, value)]
  }

  /** `dict(pairs)`. */
  function DictOf(pairs: seq<(string, Json)>): seq<(string, Json)> {
    if pairs == [] then []
    else
      var last := pairs[|pairs| - 1];
      Insert(DictOf(pairs[..|pairs| - 1]), last.0, last.1)
  }

  /** `json.loads(text)`. */
  function Load(text: string): (r: Result<Json, LoadError>)
  {
    if text != [] && text[0] == 0xFEFF as char then Err(UnexpectedBom)
    else
      var p :- ScanOnce(SkipWs(text));
      if SkipWs(p.1) != [] then Err(ExtraData) else Ok(p.0)
  }
}
