/**
  `json.loads(json.dumps(v)) == v` for every value whose objects have
  distinct keys: the decoder reads back exactly what the encoder wrote.
*/
module JsonRoundTrip {
  import opened Wrappers
  import opened DateFormat
  import opened Json
  import opened JsonLoad

  // ---------------------------------------------------------------------
  // Strings

  /** A decoded character in front of the rest of a string body. */
  function Cons(c: char, r: Result<(string, string), LoadError>): Result<(string, string), LoadError> {
    match r
    case Ok((x, rest)) => Ok(([c] + x, rest))
    case Err(e) => Err(e)
  }

  lemma ScanStringPlainStep(s: string)
    requires s != [] && IsPlain(s[0])
    ensures ScanString(s) == Cons(s[0], ScanString(s[1..]))
  {
  }

  lemma ScanStringEscapeStep(s: string, c: char, k: nat)
    requires s != [] && s[0] == '\\' && ScanEscape(s) == Ok((c, k))
    ensures ScanString(s) == Cons(c, ScanString(s[k..]))
  {
  }

  lemma ShortEscape(c: char, t: string)
    requires !IsPlain(c)
    requires c == '"' || c == '\\' || c == '\n' || c == '\r' || c == '\t' || c as int == 8 || c as int == 12
    ensures ScanEscape(EscapeChar(c) + t) == Ok((c, 2)) && |EscapeChar(c)| == 2
  {
  }

  lemma BmpEscape(c: char, t: string)
    requires !IsPlain(c) && c as int < 0x10000
    requires !(c == '"' || c == '\\' || c == '\n' || c == '\r' || c == '\t' || c as int == 8 || c as int == 12)
    ensures ScanEscape(EscapeChar(c) + t) == Ok((c, 6)) && |EscapeChar(c)| == 6
  {
    var h := Hex4(c as int);
    var s := "\\u" + h + t;
    assert EscapeChar(c) + t == s;
    assert s[2..][..4] == h;
    assert Hex4Value(s[2..]) == c as int;
  }

  lemma ScanEscapeUnicode(s: string)
    requires |s| >= 6 && s[0] == '\\' && s[1] == 'u' && IsHex4(s[2..])
    ensures ScanEscape(s) == ScanUnicodeEscape(s)
  {
  }

  /** The UTF-16 halves `ensure_ascii` writes for a character above U+FFFF join back to it. */
  lemma SurrogateHalves(c: char)
    requires c as int >= 0x10000
    ensures var n := c as int - 0x10000;
      && IsHighSurrogate(0xD800 + n / 0x400) && IsLowSurrogate(0xDC00 + n % 0x400)
      && JoinSurrogates(0xD800 + n / 0x400, 0xDC00 + n % 0x400) == c
  {
    var n := c as int - 0x10000;
    assert n == n / 0x400 * 0x400 + n % 0x400;
    assert JoinSurrogates(0xD800 + n / 0x400, 0xDC00 + n % 0x400) as int == c as int;
  }

  /** Four hex digits of `n` written at offset `k` read back as `n`. */
  lemma Hex4At(s: string, k: nat, n: int)
    requires 0 <= n < 0x10000 && k + 4 <= |s| && s[k..k + 4] == Hex4(n)
    ensures IsHex4(s[k..]) && Hex4Value(s[k..]) == n
  {
    assert s[k..][..4] == Hex4(n);
  }

  lemma ScanSurrogatePair(s: string, hi: int, lo: int)
    requires |s| >= 12 && s[0] == '\\' && s[1] == 'u' && s[6] == '\\' && s[7] == 'u'
    requires IsHex4(s[2..]) && Hex4Value(s[2..]) == hi && IsHighSurrogate(hi)
    requires IsHex4(s[8..]) && Hex4Value(s[8..]) == lo && IsLowSurrogate(lo)
    ensures ScanEscape(s) == Ok((JoinSurrogates(hi, lo), 12))
  {
    ScanEscapeUnicode(s);
  }

  /** `ensure_ascii` writes a character above U+FFFF as two `\\uXXXX` escapes. */
  lemma PairEscapeText(c: char)
    requires c as int >= 0x10000
    ensures var n := c as int - 0x10000;
      EscapeChar(c) == "\\u" + Hex4(0xD800 + n / 0x400) + "\\u" + Hex4(0xDC00 + n % 0x400)
  {
  }

  lemma PairLayout(h1: string, h2: string, t: string)
    requires |h1| == 4 && |h2| == 4
    ensures var s := "\\u" + h1 + "\\u" + h2 + t;
      && |s| >= 12 && s[0] == '\\' && s[1] == 'u' && s[6] == '\\' && s[7] == 'u'
      && s[2..6] == h1 && s[8..12] == h2
  {
  }

  lemma PairEscape(c: char, t: string)
    requires c as int >= 0x10000
    ensures ScanEscape(EscapeChar(c) + t) == Ok((c, 12)) && |EscapeChar(c)| == 12
  {
    var n := c as int - 0x10000;
    var hi, lo := 0xD800 + n / 0x400, 0xDC00 + n % 0x400;
    SurrogateHalves(c);
    PairEscapeText(c);
    var s := EscapeChar(c) + t;
    PairLayout(Hex4(hi), Hex4(lo), t);
    Hex4At(s, 2, hi);
    Hex4At(s, 8, lo);
    ScanSurrogatePair(s, hi, lo);
  }

  /** Decoding one escaped character, then the rest of the string body. */
  lemma ScanEscapedChar(c: char, t: string)
    ensures ScanString(EscapeChar(c) + t) == Cons(c, ScanString(t))
  {
    var e := EscapeChar(c);
    var s := e + t;
    assert s[|e|..] == t;
    if IsPlain(c) {
      ScanStringPlainStep(s);
    } else if c == '"' || c == '\\' || c == '\n' || c == '\r' || c == '\t' || c as int == 8 || c as int == 12 {
      ShortEscape(c, t);
      ScanStringEscapeStep(s, c, 2);
    } else if c as int < 0x10000 {
      BmpEscape(c, t);
      ScanStringEscapeStep(s, c, 6);
    } else {
      PairEscape(c, t);
      ScanStringEscapeStep(s, c, 12);
    }
  }

  /** `scanstring` reads back what `py_encode_basestring_ascii` wrote, up to the closing quote. */
  lemma {:induction false} ScanEscapedString(x: string, rest: string)
    ensures ScanString(Escape(x) + "\"" + rest) == Ok((x, rest))
    decreases |x|
  {
    if x == [] {
      assert Escape(x) + "\"" + rest == "\"" + rest;
      assert ("\"" + rest)[1..] == rest;
    } else {
      ScanEscapedString(x[1..], rest);
      assert Escape(x) + "\"" + rest == EscapeChar(x[0]) + (Escape(x[1..]) + "\"" + rest);
      ScanEscapedChar(x[0], Escape(x[1..]) + "\"" + rest);
      assert [x[0]] + x[1..] == x;
    }
  }

  // ---------------------------------------------------------------------
  // Numbers

  lemma {:induction false} DigitsValueOfNatText(n: nat)
    ensures DigitsValue(NatText(n)) == n
  {
    if n >= 10 {
      DigitsValueOfNatText(n / 10);
      var s := NatText(n);
      assert s[..|s| - 1] == NatText(n / 10);
    }
  }

  /** The digit run stops where the digits end. */
  lemma {:induction false} DigitRunOfDigits(s: string, rest: string)
    requires forall i :: 0 <= i < |s| ==> IsDigit(s[i])
    requires rest == [] || !IsDigit(rest[0])
    ensures DigitRun(s + rest) == |s|
    decreases |s|
  {
    if s != [] {
      DigitRunOfDigits(s[1..], rest);
      assert (s + rest)[1..] == s[1..] + rest;
    }
  }

  /** What may follow a value inside `json.dumps` output: nothing, or a separator or a closing bracket. */
  predicate Delimited(rest: string) {
    rest == [] || rest[0] == ',' || rest[0] == ']' || rest[0] == '}'
  }

  /** The digits of `m` followed by a delimiter: the integer part stops there and no float tail follows. */
  lemma ScanNatDigits(m: nat, rest: string)
    requires Delimited(rest)
    ensures var t := NatText(m) + rest;
      && t != [] && IsDigit(t[0])
      && (if t[0] == '0' then 1 else DigitRun(t)) == |NatText(m)|
      && t[..|NatText(m)|] == NatText(m) && t[|NatText(m)|..] == rest
      && FractionLength(rest) == 0 && ExponentLength(rest) == 0
  {
    var d := NatText(m);
    var t := d + rest;
    assert t[0] == d[0];
    if t[0] != '0' {
      DigitRunOfDigits(d, rest);
    }
  }

  lemma ScanNatText(m: nat, rest: string)
    requires Delimited(rest)
    ensures ScanNumber(NatText(m) + rest) == Ok((Number(m), rest))
  {
    ScanNatDigits(m, rest);
    DigitsValueOfNatText(m);
  }

  /** A minus sign in front of an integer's text negates the integer scanned, and consumes the same digits. */
  lemma ScanNumberNegated(t: string, v: int, rest: string)
    requires t != [] && IsDigit(t[0]) && ScanNumber(t) == Ok((Number(v), rest))
    ensures ScanNumber("-" + t) == Ok((Number(-v), rest))
  {
    assert ("-" + t)[1..] == t;
  }

  lemma ScanNegText(m: int, rest: string)
    requires m > 0 && Delimited(rest)
    ensures ScanNumber("-" + NatText(m) + rest) == Ok((Number(-m), rest))
  {
    var t := NatText(m) + rest;
    assert "-" + NatText(m) + rest == "-" + t;
    assert t[0] == NatText(m)[0];
    ScanNatText(m, rest);
    ScanNumberNegated(t, m, rest);
  }

  lemma ScanIntText(n: int, rest: string)
    requires Delimited(rest)
    ensures ScanNumber(IntText(n) + rest) == Ok((Number(n), rest))
  {
    if n < 0 {
      ScanNegText(-n, rest);
    } else {
      ScanNatText(n, rest);
    }
  }

  // ---------------------------------------------------------------------
  // Objects as dicts

  /** A dict built from pairs whose keys are distinct keeps them all, in order. */
  lemma {:induction false} DictOfDistinct(pairs: seq<(string, Json)>)
    requires UniqueKeys(pairs)
    ensures DictOf(pairs) == pairs
    decreases |pairs|
  {
    if pairs != [] {
      var init, last := pairs[..|pairs| - 1], pairs[|pairs| - 1];
      DictOfDistinct(init);
      assert FindKey(init, last.0).None?;
      assert init + [last] == pairs;
    }
  }

  // ---------------------------------------------------------------------
  // Scanner steps

  lemma SkipOneSpace(x: string)
    requires x != [] && !IsWs(x[0])
    ensures SkipWs(" " + x) == x
  {
    assert (" " + x)[1..] == x;
  }

  lemma ScanOnceLiteral(s: string, lit: string, v: Json, rest: string)
    requires (lit == "null" && v == Null) || (lit == "true" && v == Bool(true)) || (lit == "false" && v == Bool(false))
    requires s == lit + rest
    ensures ScanOnce(s) == Ok((v, rest))
  {
    assert s[..|lit|] == lit && s[|lit|..] == rest;
    assert s[..4] == lit[..4];
  }

  lemma NotStartsWith(s: string, prefix: string, k: nat)
    requires k < |s| && k < |prefix| && s[k] != prefix[k]
    ensures !StartsWith(s, prefix)
  {
    if |prefix| <= |s| {
      assert s[..|prefix|][k] == s[k];
    }
  }

  /** A number's text starts with none of the literal names `scan_once` tries before numbers. */
  lemma NoLiteralPrefix(s: string)
    requires s != [] && (IsDigit(s[0]) || (s[0] == '-' && |s| > 1 && IsDigit(s[1])))
    ensures !StartsWith(s, "null") && !StartsWith(s, "true") && !StartsWith(s, "false")
    ensures !StartsWith(s, "NaN") && !StartsWith(s, "Infinity") && !StartsWith(s, "-Infinity")
  {
    NotStartsWith(s, "null", 0);
    NotStartsWith(s, "true", 0);
    NotStartsWith(s, "false", 0);
    NotStartsWith(s, "NaN", 0);
    NotStartsWith(s, "Infinity", 0);
    if s[0] == '-' {
      NotStartsWith(s, "-Infinity", 1);
    } else {
      NotStartsWith(s, "-Infinity", 0);
    }
  }

  /** Text that opens no string, object, array or named constant goes to the number matcher. */
  lemma ScanOnceFallsToNumber(s: string)
    requires s != [] && s[0] != '"' && s[0] != '{' && s[0] != '['
    requires !StartsWith(s, "null") && !StartsWith(s, "true") && !StartsWith(s, "false")
    requires !StartsWith(s, "NaN") && !StartsWith(s, "Infinity") && !StartsWith(s, "-Infinity")
    ensures ScanOnce(s) == ScanNumber(s)
  {
  }

  lemma ScanOnceNumber(s: string)
    requires s != [] && (IsDigit(s[0]) || (s[0] == '-' && |s| > 1 && IsDigit(s[1])))
    ensures ScanOnce(s) == ScanNumber(s)
  {
    NoLiteralPrefix(s);
    ScanOnceFallsToNumber(s);
  }

  lemma ParseArrayStep(s: string)
    requires s != [] && !IsWs(s[0]) && s[0] != ']'
    ensures ParseArray(s) == (match ParseElements(s) case Ok((items, rest)) => Ok((Array(items), rest)) case Err(e) => Err(e))
  {
  }

  lemma ParseObjectStep(s: string)
    requires s != [] && s[0] == '"'
    ensures ParseObject(s) == (match ParseMembers(s) case Ok((ms, rest)) => Ok((Object(DictOf(ms)), rest)) case Err(e) => Err(e))
  {
  }

  lemma ParseElementsStep(s: string, x: Json, tail: string)
    requires ScanOnce(s) == Ok((x, tail)) && tail != [] && !IsWs(tail[0])
    ensures tail[0] == ']' ==> ParseElements(s) == Ok(([x], tail[1..]))
    ensures tail[0] == ',' ==> (ParseElements(s) ==
      match ParseElements(SkipWs(tail[1..])) case Ok((xs, r)) => Ok(([x] + xs, r)) case Err(e) => Err(e))
  {
  }

  lemma ParseMembersStep(s: string, key: string, afterKey: string, x: Json, tail: string)
    requires s != [] && s[0] == '"' && ScanString(s[1..]) == Ok((key, afterKey))
    requires afterKey != [] && afterKey[0] == ':' && ScanOnce(SkipWs(afterKey[1..])) == Ok((x, tail))
    requires tail != [] && !IsWs(tail[0])
    ensures tail[0] == '}' ==> ParseMembers(s) == Ok(([(key, x)], tail[1..]))
    ensures tail[0] == ',' ==> (ParseMembers(s) ==
      match ParseMembers(SkipWs(tail[1..])) case Ok((ms, r)) => Ok(([(key, x)] + ms, r)) case Err(e) => Err(e))
  {
  }

  // ---------------------------------------------------------------------
  // Values

  /** `json.dumps` output never starts with whitespace or a byte-order mark. */
  lemma DumpHead(v: Json)
    requires !v.Float?
    ensures |Dump(v)| > 0 && !IsWs(Dump(v)[0]) && Dump(v)[0] != 0xFEFF as char
  {
  }

  lemma DumpItemsHead(v: Json, i: nat)
    requires v.Array? && i < |v.items| && !v.items[i].Float?
    ensures |DumpItems(v, i)| > 0 && !IsWs(DumpItems(v, i)[0])
  {
    DumpHead(v.items[i]);
  }

  /** `scan_once` reads one dumped value and stops right after it. */
  lemma {:induction false} ScanDumped(v: Json, rest: string)
    requires WellFormed(v) && Delimited(rest)
    ensures ScanOnce(Dump(v) + rest) == Ok((v, rest))
    decreases v, 2
  {
    if v.Array? {
      ScanDumpedArray(v, rest);
    } else if v.Object? {
      ScanDumpedObject(v, rest);
    } else {
      ScanDumpedAtom(v, rest);
    }
  }

  /** The same for `null`, booleans, integers and strings. */
  lemma ScanDumpedAtom(v: Json, rest: string)
    requires v.Null? || v.Bool? || v.Number? || v.Str?
    requires Delimited(rest)
    ensures ScanOnce(Dump(v) + rest) == Ok((v, rest))
  {
    match v
    case Null =>
      ScanOnceLiteral(Dump(v) + rest, "null", v, rest);
    case Bool(b) =>
      ScanOnceLiteral(Dump(v) + rest, if b then "true" else "false", v, rest);
    case Number(n) =>
      var s := Dump(v) + rest;
      if n < 0 {
        assert s[1] == NatText(-n)[0];
      }
      ScanOnceNumber(s);
      ScanIntText(n, rest);
    case Str(x) =>
      var s := Dump(v) + rest;
      assert s[1..] == Escape(x) + "\"" + rest;
      ScanEscapedString(x, rest);
  }

  lemma SliceCons<T>(xs: seq<T>, i: nat)
    requires i < |xs|
    ensures xs[i..] == [xs[i]] + xs[i + 1..]
  {
  }

  lemma ScanOnceOpens(s: string)
    requires s != [] && (s[0] == '{' || s[0] == '[')
    ensures s[0] == '{' ==> ScanOnce(s) == ParseObject(s[1..])
    ensures s[0] == '[' ==> ScanOnce(s) == ParseArray(s[1..])
  {
  }

  lemma {:induction false} ScanDumpedArray(v: Json, rest: string)
    requires v.Array? && WellFormed(v) && Delimited(rest)
    ensures ScanOnce(Dump(v) + rest) == Ok((v, rest))
    decreases v, 1
  {
    if v.items == [] {
      ScanEmptyBrackets(v, rest);
    } else {
      ScanDumpedItems(v, 0, rest);
      assert v.items[0..] == v.items;
      ScanItemsInBrackets(v, rest);
    }
  }

  /** `[]` and `{}` read back as the empty list and the empty dict. */
  lemma ScanEmptyBrackets(v: Json, rest: string)
    requires v == Array([]) || v == Object([])
    ensures ScanOnce(Dump(v) + rest) == Ok((v, rest))
  {
    var s := Dump(v) + rest;
    ScanOnceOpens(s);
    var close := if v.Array? then "]" else "}";
    assert s[1..] == close + rest;
    assert (close + rest)[1..] == rest;
  }

  lemma ScanItemsInBrackets(v: Json, rest: string)
    requires v.Array? && v.items != [] && !v.items[0].Float?
    requires ParseElements(DumpItems(v, 0) + "]" + rest) == Ok((v.items, rest))
    ensures ScanOnce(Dump(v) + rest) == Ok((v, rest))
  {
    var t := DumpItems(v, 0) + "]" + rest;
    assert Dump(v) + rest == "[" + t;
    DumpItemsHead(v, 0);
    assert t[0] == DumpItems(v, 0)[0];
    ScanOpenArray(t, v.items, rest);
  }

  /** `[` followed by the text of one or more items reads as the list of them. */
  lemma ScanOpenArray(t: string, items: seq<Json>, rest: string)
    requires t != [] && !IsWs(t[0]) && t[0] != ']' && ParseElements(t) == Ok((items, rest))
    ensures ScanOnce("[" + t) == Ok((Array(items), rest))
  {
    ScanOnceOpens("[" + t);
    assert ("[" + t)[1..] == t;
    ParseArrayStep(t);
  }

  /** Members read in order from text starting with a key make up the dict they came from. */
  lemma ObjectOfMembers(v: Json, t: string, rest: string)
    requires v.Object? && UniqueKeys(v.members)
    requires t != [] && t[0] == '"' && ParseMembers(t) == Ok((v.members, rest))
    ensures ParseObject(t) == Ok((v, rest))
  {
    ParseObjectStep(t);
    DictOfDistinct(v.members);
  }

  lemma {:induction false} ScanDumpedObject(v: Json, rest: string)
    requires v.Object? && WellFormed(v) && Delimited(rest)
    ensures ScanOnce(Dump(v) + rest) == Ok((v, rest))
    decreases v, 1
  {
    if v.members == [] {
      ScanEmptyBrackets(v, rest);
    } else {
      ScanDumpedMembers(v, 0, rest);
      assert v.members[0..] == v.members;
      ScanMembersInBraces(v, rest);
    }
  }

  lemma ScanMembersInBraces(v: Json, rest: string)
    requires v.Object? && v.members != [] && UniqueKeys(v.members)
    requires ParseMembers(DumpMembers(v, 0) + "}" + rest) == Ok((v.members, rest))
    ensures ScanOnce(Dump(v) + rest) == Ok((v, rest))
  {
    var t := DumpMembers(v, 0) + "}" + rest;
    assert Dump(v) + rest == "{" + t;
    DumpMembersHead(v, 0, rest);
    ScanOpenObject(t, v, rest);
  }

  /** `{` followed by the text of one or more distinct members reads as the dict of them. */
  lemma ScanOpenObject(t: string, v: Json, rest: string)
    requires v.Object? && UniqueKeys(v.members)
    requires t != [] && t[0] == '"' && ParseMembers(t) == Ok((v.members, rest))
    ensures ScanOnce("{" + t) == Ok((v, rest))
  {
    ScanOnceOpens("{" + t);
    assert ("{" + t)[1..] == t;
    ObjectOfMembers(v, t, rest);
  }

  lemma DumpItemsLayout(v: Json, i: nat, rest: string)
    requires v.Array? && i < |v.items|
    ensures i + 1 == |v.items| ==> DumpItems(v, i) + "]" + rest == Dump(v.items[i]) + ("]" + rest)
    ensures i + 1 < |v.items| ==>
      DumpItems(v, i) + "]" + rest == Dump(v.items[i]) + (", " + (DumpItems(v, i + 1) + "]" + rest))
  {
  }

  lemma ItemsLastStep(v: Json, i: nat, rest: string)
    requires v.Array? && i + 1 == |v.items|
    requires ScanOnce(Dump(v.items[i]) + ("]" + rest)) == Ok((v.items[i], "]" + rest))
    ensures ParseElements(DumpItems(v, i) + "]" + rest) == Ok((v.items[i..], rest))
  {
    var tail := "]" + rest;
    DumpItemsLayout(v, i, rest);
    ParseElementsStep(DumpItems(v, i) + "]" + rest, v.items[i], tail);
    assert tail[1..] == rest;
    assert v.items[i..] == [v.items[i]];
  }

  /** A dumped value followed by `, ` and further items. */
  lemma ItemThenMore(s: string, x: Json, next: string, xs: seq<Json>, rest: string)
    requires ScanOnce(s) == Ok((x, ", " + next))
    requires next != [] && !IsWs(next[0]) && ParseElements(next) == Ok((xs, rest))
    ensures ParseElements(s) == Ok(([x] + xs, rest))
  {
    var tail := ", " + next;
    ParseElementsStep(s, x, tail);
    assert tail[1..] == " " + next;
    SkipOneSpace(next);
  }

  lemma ItemsNextStep(v: Json, i: nat, rest: string)
    requires v.Array? && i + 1 < |v.items| && !v.items[i + 1].Float?
    requires var tail := ", " + (DumpItems(v, i + 1) + "]" + rest);
      ScanOnce(Dump(v.items[i]) + tail) == Ok((v.items[i], tail))
    requires ParseElements(DumpItems(v, i + 1) + "]" + rest) == Ok((v.items[i + 1..], rest))
    ensures ParseElements(DumpItems(v, i) + "]" + rest) == Ok((v.items[i..], rest))
  {
    var next := DumpItems(v, i + 1) + "]" + rest;
    DumpItemsLayout(v, i, rest);
    DumpItemsHead(v, i + 1);
    assert next[0] == DumpItems(v, i + 1)[0];
    ItemThenMore(DumpItems(v, i) + "]" + rest, v.items[i], next, v.items[i + 1..], rest);
    SliceCons(v.items, i);
  }

  /** The items of a dumped array from index `i` on, up to and including `]`. */
  lemma {:induction false} ScanDumpedItems(v: Json, i: nat, rest: string)
    requires v.Array? && WellFormed(v) && i < |v.items| && Delimited(rest)
    ensures ParseElements(DumpItems(v, i) + "]" + rest) == Ok((v.items[i..], rest))
    decreases v, 0, |v.items| - i
  {
    var x := v.items[i];
    if i + 1 == |v.items| {
      ScanDumped(x, "]" + rest);
      ItemsLastStep(v, i, rest);
    } else {
      ScanDumpedItems(v, i + 1, rest);
      ScanDumped(x, ", " + (DumpItems(v, i + 1) + "]" + rest));
      ItemsNextStep(v, i, rest);
    }
  }

  /** Regrouping `"key": value` and what follows it. */
  lemma MemberRegroup(e: string, d: string, suffix: string, rest: string)
    ensures "\"" + e + "\"" + ": " + d + suffix + "}" + rest
      == "\"" + (e + "\"" + (": " + (d + (suffix + "}" + rest))))
  {
  }

  lemma DumpLastMemberLayout(v: Json, i: nat, rest: string)
    requires v.Object? && i + 1 == |v.members|
    ensures var key, x := v.members[i].0, v.members[i].1;
      DumpMembers(v, i) + "}" + rest == "\"" + (Escape(key) + "\"" + (": " + (Dump(x) + ("}" + rest))))
  {
    var e, d := Escape(v.members[i].0), Dump(v.members[i].1);
    assert DumpMembers(v, i) == "\"" + e + "\"" + ": " + d + "";
    MemberRegroup(e, d, "", rest);
  }

  lemma DumpNextMemberLayout(v: Json, i: nat, rest: string)
    requires v.Object? && i + 1 < |v.members|
    ensures var key, x := v.members[i].0, v.members[i].1;
      DumpMembers(v, i) + "}" + rest
      == "\"" + (Escape(key) + "\"" + (": " + (Dump(x) + (", " + (DumpMembers(v, i + 1) + "}" + rest)))))
  {
    var e, d := Escape(v.members[i].0), Dump(v.members[i].1);
    var suffix := ", " + DumpMembers(v, i + 1);
    assert DumpMembers(v, i) == "\"" + e + "\"" + ": " + d + suffix;
    MemberRegroup(e, d, suffix, rest);
    assert suffix + "}" + rest == ", " + (DumpMembers(v, i + 1) + "}" + rest);
  }

  lemma DumpMembersHead(v: Json, i: nat, rest: string)
    requires v.Object? && i < |v.members|
    ensures var s := DumpMembers(v, i) + "}" + rest; s != [] && s[0] == '"'
  {
    assert DumpMembers(v, i) == Quote(v.members[i].0) + (": " + Dump(v.members[i].1)
      + (if i + 1 == |v.members| then "" else ", " + DumpMembers(v, i + 1)));
  }

  /** Reading `"key": ` of a dumped member leaves the value's text. */
  lemma MemberKey(s: string, key: string, x: Json, tail: string)
    requires !x.Float?
    requires s == "\"" + (Escape(key) + "\"" + (": " + (Dump(x) + tail)))
    ensures s != [] && s[0] == '"' && ScanString(s[1..]) == Ok((key, ": " + (Dump(x) + tail)))
    ensures SkipWs((": " + (Dump(x) + tail))[1..]) == Dump(x) + tail
  {
    var afterKey := ": " + (Dump(x) + tail);
    assert s[1..] == Escape(key) + "\"" + afterKey;
    ScanEscapedString(key, afterKey);
    assert afterKey[1..] == " " + (Dump(x) + tail);
    DumpHead(x);
    SkipOneSpace(Dump(x) + tail);
  }

  lemma MembersLastStep(v: Json, i: nat, rest: string)
    requires v.Object? && i + 1 == |v.members| && !v.members[i].1.Float?
    requires ScanOnce(Dump(v.members[i].1) + ("}" + rest)) == Ok((v.members[i].1, "}" + rest))
    ensures ParseMembers(DumpMembers(v, i) + "}" + rest) == Ok(([v.members[i]], rest))
  {
    var key, x := v.members[i].0, v.members[i].1;
    var tail := "}" + rest;
    var s := DumpMembers(v, i) + "}" + rest;
    DumpLastMemberLayout(v, i, rest);
    MemberKey(s, key, x, tail);
    ParseMembersStep(s, key, ": " + (Dump(x) + tail), x, tail);
    assert tail[1..] == rest;
  }

  /** A dumped `"key": value, ` in front of further members. */
  lemma MemberThenMore(s: string, key: string, x: Json, next: string, ms: seq<(string, Json)>, rest: string)
    requires !x.Float?
    requires s == "\"" + (Escape(key) + "\"" + (": " + (Dump(x) + (", " + next))))
    requires ScanOnce(Dump(x) + (", " + next)) == Ok((x, ", " + next))
    requires next != [] && next[0] == '"' && ParseMembers(next) == Ok((ms, rest))
    ensures ParseMembers(s) == Ok(([(key, x)] + ms, rest))
  {
    var tail := ", " + next;
    MemberKey(s, key, x, tail);
    ParseMembersStep(s, key, ": " + (Dump(x) + tail), x, tail);
    assert tail[1..] == " " + next;
    SkipOneSpace(next);
  }

  lemma MembersNextStep(v: Json, i: nat, rest: string)
    requires v.Object? && i + 1 < |v.members| && !v.members[i].1.Float?
    requires var tail := ", " + (DumpMembers(v, i + 1) + "}" + rest);
      ScanOnce(Dump(v.members[i].1) + tail) == Ok((v.members[i].1, tail))
    requires ParseMembers(DumpMembers(v, i + 1) + "}" + rest) == Ok((v.members[i + 1..], rest))
    ensures ParseMembers(DumpMembers(v, i) + "}" + rest) == Ok((v.members[i..], rest))
  {
    var key, x := v.members[i].0, v.members[i].1;
    var next := DumpMembers(v, i + 1) + "}" + rest;
    DumpNextMemberLayout(v, i, rest);
    DumpMembersHead(v, i + 1, rest);
    MemberThenMore(DumpMembers(v, i) + "}" + rest, key, x, next, v.members[i + 1..], rest);
    SliceCons(v.members, i);
  }

  /** The members of a dumped object from index `i` on, up to and including `}`. */
  lemma {:induction false} ScanDumpedMembers(v: Json, i: nat, rest: string)
    requires v.Object? && WellFormed(v) && i < |v.members| && Delimited(rest)
    ensures ParseMembers(DumpMembers(v, i) + "}" + rest) == Ok((v.members[i..], rest))
    decreases v, 0, |v.members| - i, 1
  {
    if i + 1 == |v.members| {
      ScanDumpedLastMember(v, i, rest);
    } else {
      ScanDumpedMemberThenMore(v, i, rest);
    }
  }

  lemma MemberWellFormed(v: Json, i: nat)
    requires v.Object? && WellFormed(v) && i < |v.members|
    ensures WellFormed(v.members[i].1) && !v.members[i].1.Float?
  {
  }

  lemma {:induction false} ScanDumpedLastMember(v: Json, i: nat, rest: string)
    requires v.Object? && WellFormed(v) && i + 1 == |v.members| && Delimited(rest)
    ensures ParseMembers(DumpMembers(v, i) + "}" + rest) == Ok((v.members[i..], rest))
    decreases v, 0, |v.members| - i, 0
  {
    var x := v.members[i].1;
    assert v.members[i] in v.members;
    MemberWellFormed(v, i);
    ScanDumped(x, "}" + rest);
    MembersLastStep(v, i, rest);
    assert v.members[i..] == [v.members[i]];
  }

  lemma {:induction false} ScanDumpedMemberThenMore(v: Json, i: nat, rest: string)
    requires v.Object? && WellFormed(v) && i + 1 < |v.members| && Delimited(rest)
    ensures ParseMembers(DumpMembers(v, i) + "}" + rest) == Ok((v.members[i..], rest))
    decreases v, 0, |v.members| - i, 0
  {
    var x := v.members[i].1;
    assert v.members[i] in v.members;
    MemberWellFormed(v, i);
    var tail := ", " + (DumpMembers(v, i + 1) + "}" + rest);
    assert Delimited(tail);
    ScanDumpedMembers(v, i + 1, rest);
    ScanDumped(x, tail);
    MembersNextStep(v, i, rest);
  }

  /** `json.loads(json.dumps(v)) == v`. */
  lemma LoadDump(v: Json)
    requires WellFormed(v)
    ensures Load(Dump(v)) == Ok(v)
  {
    DumpHead(v);
    ScanDumped(v, "");
    assert Dump(v) + "" == Dump(v);
  }
}
