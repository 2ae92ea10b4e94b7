/**
 * The CSV exports, and a strict reader for section 2 of RFC 4180 (with LF line ends) that undoes them.
 */
module Csv {
  import opened JsMath

  /** A cell value: missing, text, a date as its ISO string, or anything else as it prints. */
  datatype Value = Nothing | Text(text: string) | Date(iso: string) | Other(printed: string)

  /** A row object: its keys in order, and its values. */
  datatype Row = Row(keys: seq<string>, cells: map<string, Value>)

  predicate IsFormulaStart(s: string) { s != "" && s[0] in "=+-@\t\r" }

  predicate IsDigit(c: char) { '0' <= c <= '9' }

  /** A digit, then digits and dots. */
  predicate IsNumber(t: string) { t != "" && IsDigit(t[0]) && forall i | 1 <= i < |t| :: IsDigit(t[i]) || t[i] == '.' }

  /** An optional sign, then a number. */
  predicate IsPlainNumber(s: string) { IsNumber(if s != "" && s[0] in "+-" then s[1..] else s) }

  /** What a cell says: text that a spreadsheet would run gets a leading quote mark. */
  function CellText(v: Value): string {
    match v
    case Nothing => ""
    case Text(s) => if IsFormulaStart(s) && !IsPlainNumber(s) then "'" + s else s
    case Date(iso) => iso
    case Other(p) => p
  }

  /**
   * Which text gets the quote mark: all that starts with an equals sign, an at sign, a tab or a carriage return, and
   * what starts with a sign unless a digit and then digits and dots only follow, as in a phone number.
   */
  lemma QuoteMarkIff(s: string)
    ensures CellText(Text(s)) == "'" + s || CellText(Text(s)) == s
    ensures CellText(Text(s)) == s <==>
              || s == ""
              || s[0] !in ['=', '+', '-', '@', '\t', '\r']
              || (s[0] in ['+', '-'] && |s| > 1 && '0' <= s[1] <= '9' && forall i | 2 <= i < |s| :: '0' <= s[i] <= '9' || s[i] == '.')
  {
    assert |"'" + s| != |s|;
    if s != "" && s[0] in "+-" {
      var t := s[1..];
      assert forall i | 1 <= i < |t| :: t[i] == s[i + 1];
      assert forall i | 2 <= i < |s| :: s[i] == t[i - 1];
      assert IsPlainNumber(s) <==> IsNumber(t);
      assert IsFormulaStart(s);
    } else if s != "" {
      assert IsFormulaStart(s) <==> s[0] in ['=', '@', '\t', '\r'];
      assert IsFormulaStart(s) ==> !IsPlainNumber(s);
    }
  }

  predicate IsSpecial(c: char) { c == '"' || c == ',' || c == '\n' || c == '\r' }

  predicate IsPlain(s: string) { forall i | 0 <= i < |s| :: !IsSpecial(s[i]) }

  function Doubled(s: string): string {
    if s == "" then "" else (if s[0] == '"' then "\"\"" else [s[0]]) + Doubled(s[1..])
  }

  function Quoted(s: string): string {
    if IsPlain(s) then s else "\"" + Doubled(s) + "\""
  }

  function CsvCell(v: Value): string { Quoted(CellText(v)) }

  function Join(parts: seq<string>, sep: string): string {
    if parts == [] then "" else if |parts| == 1 then parts[0] else parts[0] + sep + Join(parts[1..], sep)
  }

  function Get(r: Row, key: string): Value { if key in r.cells then r.cells[key] else Nothing }

  function Texts(headers: seq<string>, r: Row): (t: seq<string>)
    ensures |t| == |headers|
  {
    seq(|headers|, i requires 0 <= i < |headers| => CellText(Get(r, headers[i])))
  }

  function Cells(headers: seq<string>, r: Row): (t: seq<string>)
    ensures |t| == |headers|
  {
    seq(|headers|, i requires 0 <= i < |headers| => CsvCell(Get(r, headers[i])))
  }

  function Lines(headers: seq<string>, rows: seq<Row>): (t: seq<string>)
    ensures |t| == |rows|
  {
    seq(|rows|, i requires 0 <= i < |rows| => Join(Cells(headers, rows[i]), ","))
  }

  function ToCsv(rows: seq<Row>): string {
    if rows == [] then "" else Join([Join(rows[0].keys, ",")] + Lines(rows[0].keys, rows), "\n")
  }

  // ---------------------------------------------------------------------------------------------------- the reader

  /** A field read, and the text after it. */
  datatype Field = Field(text: string, rest: string)

  /** A record read, and the text after its line end, if there was one. */
  datatype Record = Record(fields: seq<string>, more: Option<string>)

  /** The inside of a quoted field, up to its closing quote: two quotes stand for one. */
  function ReadQuoted(s: string): (f: Option<Field>)
    ensures f.Some? ==> |f.value.rest| < |s|
    decreases |s|
  {
    if s == "" then None
    else if s[0] != '"' then
      var f := ReadQuoted(s[1..]);
      if f.None? then None else Some(Field([s[0]] + f.value.text, f.value.rest))
    else if |s| > 1 && s[1] == '"' then
      var f := ReadQuoted(s[2..]);
      if f.None? then None else Some(Field("\"" + f.value.text, f.value.rest))
    else Some(Field("", s[1..]))
  }

  /** A bare field, up to a comma, a line end or the end; quotes and carriage returns are errors in it. */
  function ReadBare(s: string): (f: Option<Field>)
    ensures f.Some? ==> |f.value.rest| <= |s|
  {
    if s == "" || s[0] == ',' || s[0] == '\n' then Some(Field("", s))
    else if IsSpecial(s[0]) then None
    else
      var f := ReadBare(s[1..]);
      if f.None? then None else Some(Field([s[0]] + f.value.text, f.value.rest))
  }

  function ReadField(s: string): (f: Option<Field>)
    ensures f.Some? ==> |f.value.rest| <= |s|
  {
    if s != "" && s[0] == '"' then ReadQuoted(s[1..]) else ReadBare(s)
  }

  function ReadRecord(s: string): (r: Option<Record>)
    ensures r.Some? && r.value.more.Some? ==> |r.value.more.value| < |s|
    decreases |s|
  {
    var f := ReadField(s);
    if f.None? then None
    else
      var rest := f.value.rest;
      if rest == "" then Some(Record([f.value.text], None))
      else if rest[0] == '\n' then Some(Record([f.value.text], Some(rest[1..])))
      else if rest[0] != ',' then None
      else
        var r := ReadRecord(rest[1..]);
        if r.None? then None else Some(Record([f.value.text] + r.value.fields, r.value.more))
  }

  function ReadCsv(s: string): Option<seq<seq<string>>>
    decreases |s|
  {
    var r := ReadRecord(s);
    if r.None? then None
    else if r.value.more.None? then Some([r.value.fields])
    else
      var q := ReadCsv(r.value.more.value);
      if q.None? then None else Some([r.value.fields] + q.value)
  }

  // ------------------------------------------------------------------------------------------------ the round trip

  /** What may follow a field. */
  predicate EndsField(rest: string) { rest == "" || rest[0] == ',' || rest[0] == '\n' }

  lemma QuotedStep(c: char, tail: string)
    ensures var x := (if c == '"' then "\"\"" else [c]) + tail;
            ReadQuoted(x) == if ReadQuoted(tail).None? then None else Some(Field([c] + ReadQuoted(tail).value.text, ReadQuoted(tail).value.rest))
  {
    if c == '"' {
      var x := "\"\"" + tail;
      assert x[0] == '"' && x[1] == '"' && x[2..] == tail;
    } else {
      var x := [c] + tail;
      assert x[0] == c && x[1..] == tail;
    }
  }

  lemma DoubledStep(s: string, end: string)
    requires s != ""
    ensures Doubled(s) + end == (if s[0] == '"' then "\"\"" else [s[0]]) + (Doubled(s[1..]) + end)
    ensures [s[0]] + s[1..] == s
  {
  }

  lemma {:induction false} QuotedReads(s: string, rest: string)
    requires EndsField(rest)
    ensures ReadQuoted(Doubled(s) + ("\"" + rest)) == Some(Field(s, rest))
  {
    var end := "\"" + rest;
    if s == "" {
      assert Doubled(s) + end == end && end[1..] == rest;
    } else {
      QuotedReads(s[1..], rest);
      DoubledStep(s, end);
      QuotedStep(s[0], Doubled(s[1..]) + end);
    }
  }

  lemma {:induction false} BareReads(s: string, rest: string)
    requires IsPlain(s) && EndsField(rest)
    ensures ReadBare(s + rest) == Some(Field(s, rest))
  {
    if s == "" {
      assert s + rest == rest;
    } else {
      BareReads(s[1..], rest);
      assert (s + rest)[1..] == s[1..] + rest;
      assert [s[0]] + s[1..] == s;
    }
  }

  lemma QuotedFieldReads(s: string, rest: string)
    requires EndsField(rest)
    ensures ReadField("\"" + Doubled(s) + "\"" + rest) == Some(Field(s, rest))
  {
    var all, inner := "\"" + Doubled(s) + "\"" + rest, Doubled(s) + ("\"" + rest);
    assert all == "\"" + inner;
    assert all[0] == '"' && all[1..] == inner;
    QuotedReads(s, rest);
  }

  lemma FieldReads(s: string, rest: string)
    requires EndsField(rest)
    ensures ReadField(Quoted(s) + rest) == Some(Field(s, rest))
  {
    if IsPlain(s) {
      BareReads(s, rest);
      assert s + rest == "" || (s + rest)[0] != '"' by {
        if s != "" { assert !IsSpecial(s[0]); } else { assert s + rest == rest; }
      }
    } else {
      QuotedFieldReads(s, rest);
    }
  }

  function QuotedAll(texts: seq<string>): (q: seq<string>)
    ensures |q| == |texts|
  {
    seq(|texts|, i requires 0 <= i < |texts| => Quoted(texts[i]))
  }

  function LineEnd(more: Option<string>): string { if more.None? then "" else "\n" + more.value }

  lemma {:induction false} RecordReads(texts: seq<string>, more: Option<string>)
    requires texts != []
    ensures ReadRecord(Join(QuotedAll(texts), ",") + LineEnd(more)) == Some(Record(texts, more))
    decreases |texts|
  {
    var end := LineEnd(more);
    if |texts| == 1 {
      FieldReads(texts[0], end);
      assert more.Some? ==> end[1..] == more.value;
      assert texts == [texts[0]];
    } else {
      var tail := Join(QuotedAll(texts[1..]), ",") + end;
      assert QuotedAll(texts)[1..] == QuotedAll(texts[1..]);
      assert Join(QuotedAll(texts), ",") + end == Quoted(texts[0]) + ("," + tail);
      FieldReads(texts[0], "," + tail);
      assert ("," + tail)[1..] == tail;
      RecordReads(texts[1..], more);
      assert [texts[0]] + texts[1..] == texts;
    }
  }

  function LinesOf(records: seq<seq<string>>): (q: seq<string>)
    ensures |q| == |records|
  {
    seq(|records|, i requires 0 <= i < |records| => Join(QuotedAll(records[i]), ","))
  }

  lemma {:induction false} RecordsRead(records: seq<seq<string>>)
    requires records != [] && forall i | 0 <= i < |records| :: records[i] != []
    ensures ReadCsv(Join(LinesOf(records), "\n")) == Some(records)
    decreases |records|
  {
    if |records| == 1 {
      RecordReads(records[0], None);
      assert Join(LinesOf(records), "\n") == Join(QuotedAll(records[0]), ",") + LineEnd(None);
      assert records == [records[0]];
    } else {
      var more := Join(LinesOf(records[1..]), "\n");
      assert LinesOf(records)[1..] == LinesOf(records[1..]);
      assert Join(LinesOf(records), "\n") == Join(QuotedAll(records[0]), ",") + LineEnd(Some(more));
      RecordReads(records[0], Some(more));
      RecordsRead(records[1..]);
      assert [records[0]] + records[1..] == records;
    }
  }

  /** What the reader should find: the header names, then each row's texts under them. */
  function Expected(rows: seq<Row>): (q: seq<seq<string>>)
    requires rows != []
    ensures |q| == 1 + |rows|
  {
    [rows[0].keys] + seq(|rows|, i requires 0 <= i < |rows| => Texts(rows[0].keys, rows[i]))
  }

  lemma PlainHeadersRead(rows: seq<Row>)
    requires rows != [] && rows[0].keys != [] && forall i | 0 <= i < |rows[0].keys| :: IsPlain(rows[0].keys[i])
    ensures ReadCsv(ToCsv(rows)) == Some(Expected(rows))
  {
    var headers, records := rows[0].keys, Expected(rows);
    assert QuotedAll(headers) == headers;
    forall i | 0 <= i < |rows| ensures LinesOf(records)[i + 1] == Lines(headers, rows)[i] {
      assert records[i + 1] == Texts(headers, rows[i]);
      assert QuotedAll(Texts(headers, rows[i])) == Cells(headers, rows[i]);
    }
    assert LinesOf(records) == [Join(headers, ",")] + Lines(headers, rows);
    RecordsRead(records);
  }

  // ------------------------------------------------------------------- header names, which are written as they are

  lemma {:induction false} BareIsPlain(s: string)
    ensures ReadBare(s).Some? ==> IsPlain(ReadBare(s).value.text)
  {
    if s != "" && !IsSpecial(s[0]) { BareIsPlain(s[1..]); }
  }

  /** What was read between quotes is the text with its quotes doubled. */
  lemma {:induction false} QuotedInverts(s: string)
    ensures var f := ReadQuoted(s); f.Some? ==> s == Doubled(f.value.text) + ("\"" + f.value.rest)
    decreases |s|
  {
    var f := ReadQuoted(s);
    if f.Some? {
      if s[0] != '"' {
        QuotedInverts(s[1..]);
        DoubledStep(f.value.text, "\"" + f.value.rest);
        assert f.value.text[1..] == ReadQuoted(s[1..]).value.text;
      } else if |s| > 1 && s[1] == '"' {
        QuotedInverts(s[2..]);
        DoubledStep(f.value.text, "\"" + f.value.rest);
        assert f.value.text[1..] == ReadQuoted(s[2..]).value.text;
        assert s == "\"\"" + s[2..];
      } else {
        assert s == "" + ("\"" + s[1..]);
      }
    }
  }

  /** How many quotes a text starts with. */
  function Leading(s: string): nat { if s != "" && s[0] == '"' then 1 + Leading(s[1..]) else 0 }

  lemma {:induction false} LeadingStops(s: string, tail: string)
    requires tail == "" || tail[0] != '"'
    ensures Leading(s + tail) == Leading(s)
  {
    if s == "" {
      assert s + tail == tail;
    } else {
      assert (s + tail)[1..] == s[1..] + tail;
      LeadingStops(s[1..], tail);
    }
  }

  lemma {:induction false} LeadingDoubles(s: string, tail: string)
    ensures Leading(Doubled(s) + tail) >= 2 * Leading(s)
  {
    if s != "" && s[0] == '"' {
      DoubledStep(s, tail);
      var rest := Doubled(s[1..]) + tail;
      assert ("\"\"" + rest)[1..] == "\"" + rest && ("\"" + rest)[1..] == rest;
      LeadingDoubles(s[1..], tail);
    }
  }

  /** A text with special characters, written as it is, is never read as itself. */
  lemma RawIsNotRead(s: string, tail: string)
    requires !IsPlain(s) && (tail == "" || tail[0] != '"')
    ensures var f := ReadField(s + tail); f.Some? ==> f.value.text != s
  {
    var all := s + tail;
    if all[0] != '"' {
      BareIsPlain(all);
    } else {
      QuotedInverts(all[1..]);
      var f := ReadQuoted(all[1..]);
      LeadingStops(s, tail);
      if f.Some? { LeadingDoubles(f.value.text, "\"" + f.value.rest); }
    }
  }

  /** A header line is read back as its names only if every name is plain. */
  lemma {:induction false} HeaderReadsIf(headers: seq<string>, more: string)
    requires headers != []
    ensures var r := ReadRecord(Join(headers, ",") + ("\n" + more));
            r.Some? && r.value.fields == headers ==> forall i | 0 <= i < |headers| :: IsPlain(headers[i])
    decreases |headers|
  {
    var line, tail := Join(headers, ",") + ("\n" + more), if |headers| == 1 then "\n" + more else "," + (Join(headers[1..], ",") + ("\n" + more));
    assert line == headers[0] + tail;
    var r := ReadRecord(line);
    if r.Some? && r.value.fields == headers {
      if !IsPlain(headers[0]) {
        RawIsNotRead(headers[0], tail);
        assert false;
      } else if |headers| > 1 {
        BareReads(headers[0], tail);
        assert ReadField(line) == Some(Field(headers[0], tail)) by {
          assert line[0] != '"' by { if headers[0] != "" { assert !IsSpecial(headers[0][0]); } }
        }
        assert tail[1..] == Join(headers[1..], ",") + ("\n" + more);
        assert ReadRecord(tail[1..]).value.fields == headers[1..];
        HeaderReadsIf(headers[1..], more);
        forall i | 0 <= i < |headers| ensures IsPlain(headers[i]) { if i > 0 { assert headers[i] == headers[1..][i - 1]; } }
      }
    }
  }

  lemma FirstRecord(s: string)
    ensures ReadCsv(s).Some? ==> ReadCsv(s).value != [] && ReadCsv(s).value[0] == ReadRecord(s).value.fields != []
  {
  }

  /**
   * An export reads back as its header names and every cell's neutralised text exactly when it has header names and
   * each is plain: cells may hold anything.
   */
  lemma CsvRoundTrip(rows: seq<Row>)
    requires rows != []
    ensures ReadCsv(ToCsv(rows)) == Some(Expected(rows)) <==> rows[0].keys != [] && forall i | 0 <= i < |rows[0].keys| :: IsPlain(rows[0].keys[i])
  {
    var headers := rows[0].keys;
    if headers != [] && forall i | 0 <= i < |headers| :: IsPlain(headers[i]) {
      PlainHeadersRead(rows);
    } else {
      var lines := Lines(headers, rows);
      assert ([Join(headers, ",")] + lines)[1..] == lines;
      assert ToCsv(rows) == Join(headers, ",") + ("\n" + Join(lines, "\n"));
      if ReadCsv(ToCsv(rows)) == Some(Expected(rows)) {
        FirstRecord(ToCsv(rows));
        if headers != [] { HeaderReadsIf(headers, Join(lines, "\n")); }
        assert false;
      }
    }
  }

  /** What stands in row `i` under header `j`: the row's own value of that name; a missing one is empty, others print as they are. */
  lemma CellsComeBack(rows: seq<Row>, i: nat, j: nat)
    requires rows != [] && i < |rows| && j < |rows[0].keys|
    ensures var key, q := rows[0].keys[j], Expected(rows);
            && q[0] == rows[0].keys && |q| == 1 + |rows| && |q[i + 1]| == |rows[0].keys|
            && (key !in rows[i].cells || rows[i].cells[key] == Nothing ==> q[i + 1][j] == "")
            && (forall iso :: key in rows[i].cells && rows[i].cells[key] == Date(iso) ==> q[i + 1][j] == iso)
            && (forall printed :: key in rows[i].cells && rows[i].cells[key] == Other(printed) ==> q[i + 1][j] == printed)
            && (forall text :: key in rows[i].cells && rows[i].cells[key] == Text(text) ==> q[i + 1][j] in [text, "'" + text])
  {
    assert Expected(rows)[i + 1] == Texts(rows[0].keys, rows[i]);
    assert Texts(rows[0].keys, rows[i])[j] == CellText(Get(rows[i], rows[0].keys[j]));
  }

  /** No text cell comes back as something a spreadsheet would run, and text that is safe comes back unchanged. */
  lemma NoFormulaComesBack(rows: seq<Row>, i: nat, j: nat)
    requires rows != [] && i < |rows| && j < |rows[0].keys| && Get(rows[i], rows[0].keys[j]).Text?
    ensures var s, t := Get(rows[i], rows[0].keys[j]).text, Expected(rows)[i + 1][j];
            && (IsFormulaStart(t) ==> IsPlainNumber(t))
            && (t == s <==> !IsFormulaStart(s) || IsPlainNumber(s))
            && (t != s ==> t == "'" + s)
  {
    var s := Get(rows[i], rows[0].keys[j]).text;
    assert |"'" + s| != |s|;
  }
}
