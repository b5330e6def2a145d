/**
  `csv.writer(f, delimiter=',', quotechar='"', quoting=csv.QUOTE_MINIMAL)`
  and `writerows`: each row becomes one record ending in `"\r\n"`, fields
  separated by `,`. A field is quoted only when it holds `,`, `"`, `\r` or
  `\n`, and a quote inside a quoted field is doubled. A row made of one empty
  field is written as `""` so that it is not mistaken for an empty row.
  The file is opened in text mode; newline handling is taken to be POSIX's,
  so the records reach the file unchanged.

  `ParseRows` is the reader of section 2 of RFC 4180 for the same dialect;
  `ParseEncodeRows` proves that it reads back exactly the rows written.
*/
module Csv {
  import opened Wrappers
  import opened Json

  /** The characters that force a field to be quoted. */
  predicate IsSpecial(c: char) {
    c == ',' || c == '"' || c == '\r' || c == '\n'
  }

  predicate NeedsQuote(field: string) {
    exists i :: 0 <= i < |field| && IsSpecial(field[i])
  }

  /** The field with every `"` doubled. */
  function DoubleQuotes(field: string): (r: string)
    ensures |r| >= |field|
  {
    if field == [] then []
    else (if field[0] == '"' then "\"\"" else [field[0]]) + DoubleQuotes(field[1..])
  }

  function EncodeField(field: string): (r: string)
    ensures !NeedsQuote(field) ==> r == field
    ensures NeedsQuote(field) ==> |r| >= 2 && r[0] == '"' && r[|r| - 1] == '"'
  {
    if NeedsQuote(field) then "\"" + DoubleQuotes(field) + "\"" else field
  }

  /** The encoded fields of a non-empty row, separated by `,`. */
  function JoinFields(row: seq<string>): string
    requires row != []
  {
    if |row| == 1 then EncodeField(row[0])
    else EncodeField(row[0]) + "," + JoinFields(row[1..])
  }

  /** One record without its terminator. */
  function EncodeRow(row: seq<string>): string {
    if row == [] then ""
    else if row == [""] then "\"\""
    else JoinFields(row)
  }

  const Terminator: string := "\r\n"

  function EncodeRecord(row: seq<string>): string {
    EncodeRow(row) + Terminator
  }

  /** `writerows(rows)`: the records one after another. */
  function EncodeRows(rows: seq<seq<string>>): string {
    if rows == [] then "" else EncodeRecord(rows[0]) + EncodeRows(rows[1..])
  }

  // ---------------------------------------------------------------------
  // What the writer makes of a cell: `str(x)` (None is written as "")

  function CellText(v: Json): string {
    match v
    case Null => ""
    case Bool(b) => if b then "True" else "False"
    case Number(n) => IntText(n)
    case Float(literal) => literal
    case Str(s) => s
    case _ => Dump(v)
  }

  function RowTexts(row: seq<Json>): (r: seq<string>)
    ensures |r| == |row| && forall i :: 0 <= i < |row| ==> r[i] == CellText(row[i])
  {
    seq(|row|, i requires 0 <= i < |row| => CellText(row[i]))
  }

  function TableTexts(rows: seq<seq<Json>>): (r: seq<seq<string>>)
    ensures |r| == |rows| && forall i :: 0 <= i < |rows| ==> r[i] == RowTexts(rows[i])
  {
    seq(|rows|, i requires 0 <= i < |rows| => RowTexts(rows[i]))
  }

  /** The text `apple_search_csv_writer(f, rows)` writes to `f`. */
  function WriteRows(rows: seq<seq<Json>>): string {
    EncodeRows(TableTexts(rows))
  }

  // ---------------------------------------------------------------------
  // The reader

  /** An unquoted field: everything up to the first special character. */
  function ParseUnquoted(s: string): (r: (string, string))
    ensures r.0 + r.1 == s
    ensures forall i :: 0 <= i < |r.0| ==> !IsSpecial(r.0[i])
    ensures r.1 == [] || IsSpecial(r.1[0])
  {
    if s == [] || IsSpecial(s[0]) then ([], s)
    else
      var t := ParseUnquoted(s[1..]);
      assert [s[0]] + t.0 + t.1 == [s[0]] + (t.0 + t.1) == s;
      ([s[0]] + t.0, t.1)
  }

  /** The rest of a quoted field after its opening quote: its text and what follows the closing quote. */
  function ParseQuoted(s: string): (r: Option<(string, string)>)
    ensures r.Some? ==> |r.value.1| < |s|
  {
    if s == [] then None
    else if s[0] == '"' then
      if |s| >= 2 && s[1] == '"' then
        var t :- ParseQuoted(s[2..]);
        Some((['"'] + t.0, t.1))
      else Some(([], s[1..]))
    else
      var t :- ParseQuoted(s[1..]);
      Some(([s[0]] + t.0, t.1))
  }

  function ParseField(s: string): (r: Option<(string, string)>)
    ensures r.Some? ==> |r.value.1| <= |s|
  {
    if s != [] && s[0] == '"' then ParseQuoted(s[1..]) else Some(ParseUnquoted(s))
  }

  /** The fields of a record with at least one field, through its terminator. */
  function ParseFields(s: string): (r: Option<(seq<string>, string)>)
    ensures r.Some? ==> |r.value.1| < |s|
    decreases |s|
  {
    var f :- ParseField(s);
    var rest := f.1;
    if rest != [] && rest[0] == ',' then
      var more :- ParseFields(rest[1..]);
      Some(([f.0] + more.0, more.1))
    else if |rest| >= 2 && rest[..2] == Terminator then Some(([f.0], rest[2..]))
    else None
  }

  /** One record: a bare terminator is the empty row. */
  function ParseRecord(s: string): (r: Option<(seq<string>, string)>)
    ensures r.Some? ==> |r.value.1| < |s|
  {
    if |s| >= 2 && s[..2] == Terminator then Some(([], s[2..]))
    else ParseFields(s)
  }

  function ParseRows(s: string): Option<seq<seq<string>>>
    decreases |s|
  {
    if s == [] then Some([])
    else
      var r :- ParseRecord(s);
      var rows :- ParseRows(r.1);
      Some([r.0] + rows)
  }

  // ---------------------------------------------------------------------
  // Reading back what was written

  /** What may follow a field: a separator or a terminator, never a quote. */
  predicate FieldEnd(rest: string) {
    rest != [] && (rest[0] == ',' || rest[0] == '\r')
  }

  lemma ParseQuotedClose(rest: string)
    requires rest == [] || rest[0] != '"'
    ensures ParseQuoted("\"" + rest) == Some(([], rest))
  {
    assert ("\"" + rest)[1..] == rest;
  }

  lemma ParseQuotedChar(c: char, tail: string, field: string, rest: string)
    requires c != '"' && ParseQuoted(tail) == Some((field, rest))
    ensures ParseQuoted([c] + tail) == Some(([c] + field, rest))
  {
    assert ([c] + tail)[1..] == tail;
  }

  lemma ParseQuotedPair(tail: string, field: string, rest: string)
    requires ParseQuoted(tail) == Some((field, rest))
    ensures ParseQuoted("\"\"" + tail) == Some((['"'] + field, rest))
  {
    assert ("\"\"" + tail)[2..] == tail;
  }

  lemma DoubleQuotesLayout(field: string, rest: string)
    requires field != []
    ensures DoubleQuotes(field) + "\"" + rest
      == (if field[0] == '"' then "\"\"" else [field[0]]) + (DoubleQuotes(field[1..]) + "\"" + rest)
  {
    var head := if field[0] == '"' then "\"\"" else [field[0]];
    Regroup(head, DoubleQuotes(field[1..]), "\"", rest);
  }

  lemma Regroup(a: string, b: string, c: string, d: string)
    ensures (a + b) + c + d == a + (b + c + d)
  {
  }

  lemma {:induction false} ParseDoubled(field: string, rest: string)
    requires rest == [] || rest[0] != '"'
    ensures ParseQuoted(DoubleQuotes(field) + "\"" + rest) == Some((field, rest))
    decreases |field|
  {
    if field == [] {
      assert DoubleQuotes(field) + "\"" + rest == "\"" + rest;
      ParseQuotedClose(rest);
    } else {
      ParseDoubled(field[1..], rest);
      DoubleQuotesLayout(field, rest);
      var tail := DoubleQuotes(field[1..]) + "\"" + rest;
      if field[0] == '"' {
        ParseQuotedPair(tail, field[1..], rest);
      } else {
        ParseQuotedChar(field[0], tail, field[1..], rest);
      }
      assert [field[0]] + field[1..] == field;
    }
  }

  lemma {:induction false} ParsePlain(field: string, rest: string)
    requires forall i :: 0 <= i < |field| ==> !IsSpecial(field[i])
    requires rest == [] || IsSpecial(rest[0])
    ensures ParseUnquoted(field + rest) == (field, rest)
    decreases |field|
  {
    if field != [] {
      assert (field + rest)[1..] == field[1..] + rest;
      ParsePlain(field[1..], rest);
      assert [field[0]] + field[1..] == field;
    } else {
      assert field + rest == rest;
    }
  }

  lemma ParseQuotedField(field: string, rest: string)
    requires rest == [] || rest[0] != '"'
    ensures ParseField("\"" + DoubleQuotes(field) + "\"" + rest) == Some((field, rest))
  {
    var t := DoubleQuotes(field) + "\"" + rest;
    Regroup("\"", DoubleQuotes(field), "\"", rest);
    assert ("\"" + t)[1..] == t;
    ParseDoubled(field, rest);
  }

  lemma ParsePlainField(field: string, rest: string)
    requires !NeedsQuote(field) && FieldEnd(rest)
    ensures ParseField(field + rest) == Some((field, rest))
  {
    ParsePlain(field, rest);
    assert field != [] ==> !IsSpecial(field[0]);
  }

  lemma ParseEncodedField(field: string, rest: string)
    requires FieldEnd(rest)
    ensures ParseField(EncodeField(field) + rest) == Some((field, rest))
  {
    if NeedsQuote(field) {
      ParseQuotedField(field, rest);
    } else {
      ParsePlainField(field, rest);
    }
  }

  lemma ParseFieldsLast(s: string, field: string, rest: string)
    requires ParseField(s) == Some((field, Terminator + rest))
    ensures ParseFields(s) == Some(([field], rest))
  {
    assert (Terminator + rest)[..2] == Terminator;
    assert (Terminator + rest)[2..] == rest;
  }

  lemma ParseFieldsNext(s: string, field: string, tail: string, more: seq<string>, rest: string)
    requires ParseField(s) == Some((field, "," + tail))
    requires ParseFields(tail) == Some((more, rest))
    ensures ParseFields(s) == Some(([field] + more, rest))
  {
    assert ("," + tail)[1..] == tail;
  }

  lemma ParseJoinedOne(field: string, rest: string)
    ensures ParseFields(JoinFields([field]) + Terminator + rest) == Some(([field], rest))
  {
    var s := JoinFields([field]) + Terminator + rest;
    assert s == EncodeField(field) + (Terminator + rest);
    ParseEncodedField(field, Terminator + rest);
    ParseFieldsLast(s, field, rest);
  }

  /** An encoded field, a comma, and further fields. */
  lemma ParseFieldThenMore(field: string, tail: string, more: seq<string>, rest: string)
    requires ParseFields(tail) == Some((more, rest))
    ensures ParseFields(EncodeField(field) + ("," + tail)) == Some(([field] + more, rest))
  {
    ParseEncodedField(field, "," + tail);
    ParseFieldsNext(EncodeField(field) + ("," + tail), field, tail, more, rest);
  }

  lemma JoinFieldsCons(row: seq<string>)
    requires |row| >= 2
    ensures JoinFields(row) == EncodeField(row[0]) + "," + JoinFields(row[1..])
  {
  }

  lemma RegroupJoined(e: string, j: string, t: string, rest: string)
    ensures (e + "," + j) + t + rest == e + ("," + (j + t + rest))
  {
    assert (e + "," + j) + t + rest == e + "," + (j + t + rest);
  }

  lemma ParseJoinedMore(row: seq<string>, rest: string)
    requires |row| >= 2
    requires ParseFields(JoinFields(row[1..]) + Terminator + rest) == Some((row[1..], rest))
    ensures ParseFields(JoinFields(row) + Terminator + rest) == Some((row, rest))
  {
    var e, j := EncodeField(row[0]), JoinFields(row[1..]);
    JoinFieldsCons(row);
    RegroupJoined(e, j, Terminator, rest);
    ParseFieldThenMore(row[0], j + Terminator + rest, row[1..], rest);
    HeadTail(row);
  }

  lemma HeadTail<T>(xs: seq<T>)
    requires xs != []
    ensures [xs[0]] + xs[1..] == xs
  {
  }

  lemma {:induction false} ParseJoined(row: seq<string>, rest: string)
    requires row != []
    ensures ParseFields(JoinFields(row) + Terminator + rest) == Some((row, rest))
    decreases |row|
  {
    if |row| == 1 {
      ParseJoinedOne(row[0], rest);
      assert [row[0]] == row;
    } else {
      ParseJoined(row[1..], rest);
      ParseJoinedMore(row, rest);
    }
  }

  /** A record that is not the empty row does not begin with the terminator. */
  lemma JoinedStart(row: seq<string>, rest: string)
    requires row != [] && row != [""]
    ensures var s := JoinFields(row) + Terminator + rest; |s| >= 2 && s[..2] != Terminator
  {
    var s := JoinFields(row) + Terminator + rest;
    if |row| == 1 {
      assert row[0] != [];
      if NeedsQuote(row[0]) {
        assert s[0] == '"';
      } else {
        assert s[0] == row[0][0] && !IsSpecial(row[0][0]);
      }
    } else {
      var e := EncodeField(row[0]);
      assert s == e + ("," + JoinFields(row[1..]) + Terminator + rest);
      if e == [] {
        assert s[0] == ',';
      } else if NeedsQuote(row[0]) {
        assert s[0] == '"';
      } else {
        assert s[0] == row[0][0] && !IsSpecial(row[0][0]);
      }
    }
  }

  lemma ParseEncodedRecord(row: seq<string>, rest: string)
    ensures ParseRecord(EncodeRecord(row) + rest) == Some((row, rest))
  {
    var s := EncodeRecord(row) + rest;
    if row == [] {
      assert s == Terminator + rest;
      assert s[2..] == rest;
    } else if row == [""] {
      assert s == "\"" + (DoubleQuotes("") + "\"" + (Terminator + rest));
      ParseDoubled("", Terminator + rest);
      ParseFieldsLast(s, "", rest);
    } else {
      JoinedStart(row, rest);
      ParseJoined(row, rest);
    }
  }

  /** Reading what `writerows` wrote gives back the rows, one record per row. */
  lemma {:induction false} ParseEncodeRows(rows: seq<seq<string>>)
    ensures ParseRows(EncodeRows(rows)) == Some(rows)
    decreases |rows|
  {
    if rows != [] {
      var tail := EncodeRows(rows[1..]);
      ParseEncodedRecord(rows[0], tail);
      ParseEncodeRows(rows[1..]);
      assert EncodeRecord(rows[0]) != [];
      assert [rows[0]] + rows[1..] == rows;
    }
  }

  /** Distinct tables are written as distinct texts. */
  lemma EncodeRowsInjective(a: seq<seq<string>>, b: seq<seq<string>>)
    requires EncodeRows(a) == EncodeRows(b)
    ensures a == b
  {
    ParseEncodeRows(a);
    ParseEncodeRows(b);
  }

  /** `writerows` on two batches writes the records of the first, then those of the second. */
  lemma {:induction false} EncodeRowsAppend(a: seq<seq<string>>, b: seq<seq<string>>)
    ensures EncodeRows(a + b) == EncodeRows(a) + EncodeRows(b)
    decreases |a|
  {
    if a == [] {
      assert a + b == b;
    } else {
      assert (a + b)[1..] == a[1..] + b;
      EncodeRowsAppend(a[1..], b);
    }
  }

  /** An empty list writes nothing: opening with `'w'` then leaves the file empty. */
  lemma WriteNoRows()
    ensures WriteRows([]) == ""
  {
  }

  /** The written cells read back as the cells' texts, row by row and in order. */
  lemma ParseWriteRows(rows: seq<seq<Json>>)
    ensures ParseRows(WriteRows(rows)) == Some(TableTexts(rows))
  {
    ParseEncodeRows(TableTexts(rows));
  }

  /** Plain text is written unquoted, and a field with a special character is quoted with its quotes doubled. */
  lemma QuotedOnlyWhenNeeded(field: string)
    ensures !NeedsQuote(field) <==> EncodeField(field) == field
    ensures NeedsQuote(field) ==> EncodeField(field) == "\"" + DoubleQuotes(field) + "\""
  {
  }
}
