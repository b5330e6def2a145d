/**
  Decoded JSON values as Python holds them after `json.loads`, the Python
  operations the extractors apply to them (subscript, iteration, truth
  value), and `json.dumps` with its default settings.

  Integers are held exactly. A float (a number with a fraction or an
  exponent, or one of `NaN`, `Infinity`, `-Infinity`) is held as the literal
  text it was decoded from: the downloader copies metric values through and
  does no arithmetic on them.
*/
module Json {
  import opened Wrappers
  import opened DateFormat

  datatype Json =
    | Null
    | Bool(b: bool)
    | Number(n: int)
    | Float(literal: string)
    | Str(s: string)
    | Array(items: seq<Json>)
    | Object(members: seq<(string, Json)>)

  /** The exceptions raised by subscripting or iterating a decoded value. */
  datatype PyError =
    | KeyError(key: string)   // the object has no such key
    | TypeError               // the value is not an object (subscript) or not iterable

  function KeysOf(members: seq<(string, Json)>): (keys: seq<string>)
    ensures |keys| == |members| && forall i :: 0 <= i < |members| ==> keys[i] == members[i].0
  {
    if members == [] then [] else [members[0].0] + KeysOf(members[1..])
  }

  /** A Python dict: no key twice. */
  predicate UniqueKeys(members: seq<(string, Json)>) {
    forall i, j :: 0 <= i < j < |members| ==> members[i].0 != members[j].0
  }

  /** Every object inside `v`, `v` included, is a proper dict, and no float occurs in it. */
  predicate WellFormed(v: Json)
    decreases v
  {
    match v
    case Array(items) => forall i :: 0 <= i < |items| ==> WellFormed(items[i])
    case Object(members) =>
      UniqueKeys(members) && forall i :: 0 <= i < |members| ==> WellFormed(members[i].1)
    case Float(_) => false
    case _ => true
  }

  /** Index of the first member named `key`. */
  function FindKey(members: seq<(string, Json)>, key: string): (r: Option<nat>)
    ensures r.None? <==> forall i :: 0 <= i < |members| ==> members[i].0 != key
    ensures r.Some? ==> r.value < |members| && members[r.value].0 == key
    ensures r.Some? ==> forall i :: 0 <= i < r.value ==> members[i].0 != key
  {
    if members == [] then None
    else if members[0].0 == key then Some(0)
    else match FindKey(members[1..], key)
      case None => None
      case Some(i) => Some(i + 1)
  }

  /** Python's `v[key]`. */
  function Lookup(v: Json, key: string): (r: Result<Json, PyError>)
    ensures !v.Object? ==> r == Err(TypeError)
    ensures v.Object? ==> (r.Ok? <==> key in KeysOf(v.members))
    ensures v.Object? && r.Err? ==> r.error == KeyError(key)
    ensures r.Ok? ==> exists i :: 0 <= i < |v.members| && v.members[i] == (key, r.value)
  {
    match v
    case Object(members) =>
      (match FindKey(members, key)
       case Some(i) => Ok(members[i].1)
       case None => Err(KeyError(key)))
    case _ => Err(TypeError)
  }

  /** `v[key]` finds the first member named `key`. */
  lemma LookupAt(members: seq<(string, Json)>, key: string, i: nat)
    requires i < |members| && members[i].0 == key
    requires forall j :: 0 <= j < i ==> members[j].0 != key
    ensures Lookup(Object(members), key) == Ok(members[i].1)
  {
    var k := FindKey(members, key);
    assert k.Some?;
    assert k.value == i;
  }

  /** What `for x in v` visits: list items, dict keys, or the one-character strings of a string. */
  function Iterate(v: Json): (r: Result<seq<Json>, PyError>)
    ensures r.Err? <==> (v.Null? || v.Bool? || v.Number? || v.Float?)
    ensures r.Err? ==> r.error == TypeError
    ensures v.Array? ==> r == Ok(v.items)
    ensures v.Object? ==>
      && r.Ok? && |r.value| == |v.members|
      && forall i :: 0 <= i < |v.members| ==> r.value[i] == Str(v.members[i].0)
    ensures v.Str? ==>
      && r.Ok? && |r.value| == |v.s|
      && forall i :: 0 <= i < |v.s| ==> r.value[i] == Str([v.s[i]])
  {
    match v
    case Array(items) => Ok(items)
    case Object(members) => Ok(seq(|members|, i requires 0 <= i < |members| => Str(members[i].0)))
    case Str(s) => Ok(seq(|s|, i requires 0 <= i < |s| => Str([s[i]])))
    case _ => Err(TypeError)
  }

  /** The literal has a non-zero digit before its exponent. */
  predicate NonzeroMantissa(literal: string) {
    literal != [] && literal[0] != 'e' && literal[0] != 'E'
    && (('1' <= literal[0] <= '9') || NonzeroMantissa(literal[1..]))
  }

  /** Python's `bool(v)`. */
  predicate Truthy(v: Json) {
    match v
    case Null => false
    case Bool(b) => b
    case Number(n) => n != 0
    case Float(literal) => literal == "NaN" || literal == "Infinity" || literal == "-Infinity" || NonzeroMantissa(literal)
    case Str(s) => s != []
    case Array(items) => items != []
    case Object(members) => members != []
  }

  // ---------------------------------------------------------------------
  // json.dumps(v): separators ", " and ": ", ensure_ascii=True

  /** Decimal digits of a natural number, no leading zero. */
  function NatText(n: nat): (s: string)
    ensures |s| > 0 && forall i :: 0 <= i < |s| ==> IsDigit(s[i])
    ensures n > 0 ==> s[0] != '0'
    ensures n == 0 ==> s == "0"
  {
    if n < 10 then [Digit(n)] else NatText(n / 10) + [Digit(n % 10)]
  }

  /** `str(n)` / `repr(n)` of an int. */
  function IntText(n: int): string {
    if n < 0 then "-" + NatText(-n) else NatText(n)
  }

  function HexDigit(d: int): (c: char)
    requires 0 <= d < 16
    ensures IsHex(c) && HexValue(c) == d
  {
    if d < 10 then (48 + d) as char else (87 + d) as char
  }

  predicate IsHex(c: char) {
    '0' <= c <= '9' || 'a' <= c <= 'f' || 'A' <= c <= 'F'
  }

  function HexValue(c: char): (d: int)
    requires IsHex(c)
    ensures 0 <= d < 16
  {
    if c <= '9' then c as int - 48 else if c <= 'F' then c as int - 55 else c as int - 87
  }

  /** `'{0:04x}'.format(n)`. */
  function Hex4(n: int): (s: string)
    requires 0 <= n < 0x10000
    ensures |s| == 4 && IsHex4(s) && Hex4Value(s) == n
  {
    var a, b, c, d := n / 0x1000, n / 0x100 % 16, n / 16 % 16, n % 16;
    assert n / 0x100 == 16 * a + b;
    assert n / 16 == 16 * (n / 0x100) + c;
    [HexDigit(a), HexDigit(b), HexDigit(c), HexDigit(d)]
  }

  predicate IsHex4(s: string) {
    |s| >= 4 && IsHex(s[0]) && IsHex(s[1]) && IsHex(s[2]) && IsHex(s[3])
  }

  function Hex4Value(s: string): (n: int)
    requires IsHex4(s)
    ensures 0 <= n < 0x10000
  {
    0x1000 * HexValue(s[0]) + 0x100 * HexValue(s[1]) + 16 * HexValue(s[2]) + HexValue(s[3])
  }

  /** The characters `ensure_ascii` writes unescaped: printable ASCII other than `"` and `\`. */
  predicate IsPlain(c: char) {
    ' ' <= c <= '~' && c != '"' && c != '\\'
  }

  /** `py_encode_basestring_ascii` for one character. */
  function EscapeChar(c: char): (s: string)
    ensures |s| > 0
    ensures s[0] == '\\' <==> !IsPlain(c)
    ensures IsPlain(c) ==> s == [c]
  {
    if IsPlain(c) then [c]
    else if c == '"' then "\\\""
    else if c == '\\' then "\\\\"
    else if c == '\n' then "\\n"
    else if c == '\r' then "\\r"
    else if c == '\t' then "\\t"
    else if c as int == 8 then "\\b"
    else if c as int == 12 then "\\f"
    else if c as int < 0x10000 then "\\u" + Hex4(c as int)
    else
      var n := c as int - 0x10000;
      "\\u" + Hex4(0xD800 + n / 0x400) + "\\u" + Hex4(0xDC00 + n % 0x400)
  }

  function Escape(s: string): string {
    if s == [] then "" else EscapeChar(s[0]) + Escape(s[1..])
  }

  function Quote(s: string): string {
    "\"" + Escape(s) + "\""
  }

  function Dump(v: Json): (s: string)
    decreases v
  {
    match v
    case Null => "null"
    case Bool(b) => if b then "true" else "false"
    case Number(n) => IntText(n)
    case Float(literal) => literal
    case Str(s) => Quote(s)
    case Array(items) => if items == [] then "[]" else "[" + DumpItems(v, 0) + "]"
    case Object(members) => if members == [] then "{}" else "{" + DumpMembers(v, 0) + "}"
  }

  /** The items of an array from index `i` on, separated by `", "`. */
  function DumpItems(v: Json, i: nat): string
    requires v.Array? && i < |v.items|
    decreases v, |v.items| - i
  {
    Dump(v.items[i]) + (if i + 1 == |v.items| then "" else ", " + DumpItems(v, i + 1))
  }

  /** The members of an object from index `i` on: `"key": value`, separated by `", "`. */
  function DumpMembers(v: Json, i: nat): string
    requires v.Object? && i < |v.members|
    decreases v, |v.members| - i
  {
    assert v.members[i] in v.members;
    Quote(v.members[i].0) + ": " + Dump(v.members[i].1)
      + (if i + 1 == |v.members| then "" else ", " + DumpMembers(v, i + 1))
  }
}
