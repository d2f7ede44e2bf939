/**
 * Reading back what the CSV download writes.  For a table whose column
 * names are plain (distinct, non-empty, trimmed, without `,` `;` `"` tab or
 * line breaks) and whose values are non-empty, trimmed, free of line breaks
 * and neither start nor end with `"`, with at most 999 rows, the CSV reader
 * returns exactly the rows that were written.
 */
module CsvRoundTrip {
  import opened JsText
  import opened Lists
  import opened Tabular
  import opened CsvWriter

  /** A value the reader gives back unchanged. */
  predicate SafeValue(v: string) {
    v != [] && Trimmed(v) && '\n' !in v && '\r' !in v && v[0] != '"' && v[|v| - 1] != '"'
  }

  /** A column name the reader gives back unchanged and that cannot change the sniffed delimiter. */
  predicate SafeHeader(h: string) {
    SafeValue(h) && ',' !in h && ';' !in h && '\t' !in h && '"' !in h
  }

  /** A row holding exactly the given columns, each with a safe value. */
  ghost predicate SafeRow(headers: seq<string>, row: Row) {
    && row.keys == headers
    && (forall h :: h in row.cells <==> h in headers)
    && (forall k :: 0 <= k < |headers| ==> SafeValue(CellText(row, headers[k])))
  }

  /** The tables the round trip holds for. */
  ghost predicate SafeTable(headers: seq<string>, rows: seq<Row>) {
    && |headers| >= 1
    && Distinct(headers)
    && (forall k :: 0 <= k < |headers| ==> SafeHeader(headers[k]))
    && |rows| < RowLimit
    && (forall i :: 0 <= i < |rows| ==> SafeRow(headers, rows[i]))
  }

  // ------------------------------------------------------- scanning fields

  lemma {:induction false} ScanChar(s: string, cur: string, inQ: bool, acc: seq<string>)
    requires s != [] && s[0] != '"' && !(s[0] == ',' && !inQ)
    ensures Scan(s, ',', cur, inQ, acc) == Scan(s[1..], ',', cur + [s[0]], inQ, acc)
  {
  }

  lemma {:induction false} ScanPair(s: string, cur: string, inQ: bool, acc: seq<string>)
    requires |s| > 1 && s[0] == '"' && s[1] == '"'
    ensures Scan(s, ',', cur, inQ, acc) == Scan(s[2..], ',', cur + ['"'], inQ, acc)
  {
  }

  lemma {:induction false} ScanToggle(s: string, cur: string, inQ: bool, acc: seq<string>)
    requires s != [] && s[0] == '"' && (|s| == 1 || s[1] != '"')
    ensures Scan(s, ',', cur, inQ, acc) == Scan(s[1..], ',', cur, !inQ, acc)
  {
  }

  /** Text without quotes and commas is copied into the current field. */
  lemma {:induction false} ScanPlain(s: string, rest: string, cur: string, inQ: bool, acc: seq<string>)
    requires '"' !in s && ',' !in s
    ensures Scan(s + rest, ',', cur, inQ, acc) == Scan(rest, ',', cur + s, inQ, acc)
  {
    if s == [] {
      assert s + rest == rest;
      assert cur + s == cur;
    } else {
      var t := s + rest;
      assert t[0] == s[0] && t[1..] == s[1..] + rest;
      ScanChar(t, cur, inQ, acc);
      ScanPlain(s[1..], rest, cur + [s[0]], inQ, acc);
      assert cur + [s[0]] + s[1..] == cur + s;
    }
  }

  /** Inside quotes, a doubled text is read back as the text itself. */
  lemma {:induction false} ScanDoubled(g: string, tail: string, cur: string, acc: seq<string>)
    ensures Scan(DoubleQuotes(g) + tail, ',', cur, true, acc) == Scan(tail, ',', cur + g, true, acc)
  {
    if g == [] {
      assert DoubleQuotes(g) + tail == tail;
      assert cur + g == cur;
    } else {
      ScanDoubledStep(g, tail, cur, acc);
      ScanDoubled(g[1..], tail, cur + [g[0]], acc);
      AppendHead(cur, g);
    }
  }

  /** Inside quotes, the doubled form of the first character of `g` is read as that character. */
  lemma ScanDoubledStep(g: string, tail: string, cur: string, acc: seq<string>)
    requires g != []
    ensures Scan(DoubleQuotes(g) + tail, ',', cur, true, acc) == Scan(DoubleQuotes(g[1..]) + tail, ',', cur + [g[0]], true, acc)
  {
    var d := DoubleQuotes(g[1..]);
    var first: string := if g[0] == '"' then ['"', '"'] else [g[0]];
    assert DoubleQuotes(g) == first + d;
    Assoc(first, d, tail);
    var t := first + (d + tail);
    if g[0] == '"' {
      assert t[2..] == d + tail;
      ScanPair(t, cur, true, acc);
    } else {
      assert t[1..] == d + tail;
      ScanChar(t, cur, true, acc);
    }
  }

  /** A quoted value followed by a delimiter or the end of the line is read back whole. */
  lemma {:induction false} ScanQuoted(v: string, rest: string, acc: seq<string>)
    requires v != [] && v[0] != '"'
    requires rest == [] || rest[0] == ','
    ensures Scan(['"'] + DoubleQuotes(v) + ['"'] + rest, ',', [], false, acc) == Scan(rest, ',', v, false, acc)
  {
    var q: string := ['"'];
    var dq := DoubleQuotes(v);
    var t := q + rest;
    var inner := dq + t;
    var s := q + inner;
    Regroup(q, dq, q, rest);
    assert dq == [v[0]] + DoubleQuotes(v[1..]);
    assert s[1] == dq[0] == v[0];
    assert s[1..] == inner;
    ScanToggle(s, [], false, acc);
    ScanDoubled(v, t, [], acc);
    assert [] + v == v;
    assert t[1..] == rest;
    ScanToggle(t, v, true, acc);
  }

  /** An escaped value followed by a delimiter or the end of the line is read back whole. */
  lemma {:induction false} ScanEscaped(v: string, rest: string, acc: seq<string>)
    requires v != [] && v[0] != '"'
    requires rest == [] || rest[0] == ','
    ensures Scan(Escape(v) + rest, ',', [], false, acc) == Scan(rest, ',', v, false, acc)
  {
    if NeedsQuoting(v) {
      ScanQuoted(v, rest, acc);
    } else {
      ScanPlain(v, rest, [], false, acc);
      assert [] + v == v;
    }
  }

  lemma {:induction false} ScanDelimiter(s: string, cur: string, acc: seq<string>)
    requires s != [] && s[0] == ','
    ensures Scan(s, ',', cur, false, acc) == Scan(s[1..], ',', [], false, acc + [Trim(cur)])
  {
  }

  lemma {:induction false} ScanLast(v: string, acc: seq<string>)
    requires v != [] && v[0] != '"' && Trim(v) == v
    ensures Scan(Join([Escape(v)], ","), ',', [], false, acc) == acc + [v]
  {
    assert Join([Escape(v)], ",") == Escape(v) + [];
    ScanEscaped(v, [], acc);
  }

  lemma {:induction false} JoinCons(xs: seq<string>, sep: string)
    requires |xs| > 1
    ensures Join(xs, sep) == xs[0] + (sep + Join(xs[1..], sep))
  {
  }

  /** A value the field scanner reads back from its escaped form. */
  predicate Readable(v: string) {
    v != [] && v[0] != '"' && Trim(v) == v
  }

  lemma {:induction false} SafeReadable(v: string)
    requires SafeValue(v)
    ensures Readable(v)
  {
    TrimOfTrimmed(v);
  }

  /** The first escaped value of a line and its delimiter are read as one field. */
  lemma {:induction false} ScanJoinStep(es: seq<string>, v: string, acc: seq<string>)
    requires |es| > 1 && es[0] == Escape(v) && Readable(v)
    ensures Scan(Join(es, ","), ',', [], false, acc) == Scan(Join(es[1..], ","), ',', [], false, acc + [v])
  {
    var j := Join(es[1..], ",");
    var rest := "," + j;
    JoinCons(es, ",");
    ScanEscaped(v, rest, acc);
    assert rest[1..] == j;
    ScanDelimiter(rest, v, acc);
  }

  lemma {:induction false} AllReadableTail(vs: seq<string>)
    requires |vs| >= 1
    requires forall k :: 0 <= k < |vs| ==> Readable(vs[k])
    ensures forall k :: 0 <= k < |vs[1..]| ==> Readable(vs[1..][k])
  {
    forall k | 0 <= k < |vs[1..]| ensures Readable(vs[1..][k]) {
      assert vs[1..][k] == vs[k + 1];
    }
  }

  lemma {:induction false} EscapeAllCons(vs: seq<string>)
    requires vs != []
    ensures EscapeAll(vs)[0] == Escape(vs[0]) && EscapeAll(vs)[1..] == EscapeAll(vs[1..])
  {
  }

  /** A line of escaped readable values scans into exactly those values. */
  lemma {:induction false} ScanJoin(vs: seq<string>, acc: seq<string>)
    requires |vs| >= 1
    requires forall k :: 0 <= k < |vs| ==> Readable(vs[k])
    ensures Scan(Join(EscapeAll(vs), ","), ',', [], false, acc) == acc + vs
  {
    if |vs| == 1 {
      ScanJoinLast(vs, acc);
    } else {
      var es := EscapeAll(vs);
      EscapeAllCons(vs);
      ScanJoinStep(es, vs[0], acc);
      AllReadableTail(vs);
      ScanJoin(vs[1..], acc + [vs[0]]);
      AppendHead(acc, vs);
    }
  }

  lemma {:induction false} ScanJoinLast(vs: seq<string>, acc: seq<string>)
    requires |vs| == 1 && Readable(vs[0])
    ensures Scan(Join(EscapeAll(vs), ","), ',', [], false, acc) == acc + vs
  {
    EscapeAllCons(vs);
    ScanLast(vs[0], acc);
    assert EscapeAll(vs) == [Escape(vs[0])];
    assert vs == [vs[0]];
  }

  lemma {:induction false} JoinHead(xs: seq<string>, sep: string)
    requires |xs| >= 1 && xs[0] != []
    ensures Join(xs, sep) != [] && Join(xs, sep)[0] == xs[0][0]
  {
  }

  lemma {:induction false} StripSafe(v: string)
    requires SafeValue(v)
    ensures StripQuotes(v) == v
  {
  }

  lemma {:induction false} EscapeAllAt(vs: seq<string>, k: nat)
    requires k < |vs|
    ensures EscapeAll(vs)[k] == Escape(vs[k])
  {
    if k > 0 {
      EscapeAllCons(vs);
      EscapeAllAt(vs[1..], k - 1);
    }
  }

  /** A non-empty line whose scan yields fields that lose no quotes parses into those fields. */
  lemma {:induction false} ParseLineOf(line: string, fields: seq<string>)
    requires line != [] && Scan(line, ',', [], false, []) == fields
    requires forall k :: 0 <= k < |fields| ==> StripQuotes(fields[k]) == fields[k]
    ensures ParseLine(line, ',') == fields
  {
  }

  /** A line of escaped safe values parses into exactly those values. */
  lemma {:induction false} ParseJoin(vs: seq<string>)
    requires |vs| >= 1
    requires forall k :: 0 <= k < |vs| ==> SafeValue(vs[k])
    ensures ParseLine(Join(EscapeAll(vs), ","), ',') == vs
  {
    var es := EscapeAll(vs);
    var line := Join(es, ",");
    EscapeAllCons(vs);
    JoinHead(es, ",");
    forall k | 0 <= k < |vs|
      ensures Readable(vs[k]) && StripQuotes(vs[k]) == vs[k]
    {
      SafeReadable(vs[k]);
      StripSafe(vs[k]);
    }
    ScanJoin(vs, []);
    assert [] + vs == vs;
    ParseLineOf(line, vs);
  }

  // ------------------------------------------------------------- the lines

  lemma {:induction false} JoinFree(xs: seq<string>, sep: string, c: char)
    requires forall k :: 0 <= k < |xs| ==> c !in xs[k]
    requires c !in sep
    ensures c !in Join(xs, sep)
  {
    if |xs| > 1 {
      JoinFree(xs[1..], sep, c);
    }
  }

  lemma {:induction false} DoubleQuotesFree(v: string, c: char)
    requires c != '"' && c !in v
    ensures c !in DoubleQuotes(v)
  {
    if v != [] {
      DoubleQuotesFree(v[1..], c);
    }
  }

  lemma {:induction false} EscapeFree(v: string, c: char)
    requires c != '"' && c !in v
    ensures c !in Escape(v)
  {
    DoubleQuotesFree(v, c);
  }

  /** A string that starts with a non-space character is not blank. */
  lemma {:induction false} NonBlankStart(s: string)
    requires s != [] && !IsSpace(s[0])
    ensures NonBlank(s)
  {
    TrimEndNonEmpty(s);
  }

  lemma {:induction false} SplitTerminated(ls: seq<string>)
    requires forall k :: 0 <= k < |ls| ==> '\n' !in ls[k]
    ensures Split(Terminated(ls), '\n') == ls + [[]]
  {
    if ls != [] {
      SplitTerminated(ls[1..]);
      SplitAfterPiece(ls[0], '\n', Terminated(ls[1..]));
      assert Terminated(ls) == ls[0] + ['\n'] + Terminated(ls[1..]);
      assert ls == [ls[0]] + ls[1..];
    }
  }

  lemma {:induction false} TrimBreaksPlain(ls: seq<string>)
    requires forall k :: 0 <= k < |ls| ==> '\r' !in ls[k]
    ensures TrimBreaks(ls + [[]]) == ls + [[]]
  {
    if ls != [] {
      assert (ls + [[]])[1..] == ls[1..] + [[]];
      TrimBreaksPlain(ls[1..]);
      assert DropCR(ls[0]) == ls[0];
    }
  }

  lemma {:induction false} FilterAll(ls: seq<string>)
    requires forall k :: 0 <= k < |ls| ==> NonBlank(ls[k])
    ensures Filter(ls, NonBlank) == ls
  {
    if ls != [] {
      FilterAll(ls[1..]);
    }
  }

  lemma {:induction false} FilterDropsEmpty()
    ensures Filter([[]], NonBlank) == []
  {
    var e: string := [];
    assert !NonBlank(e);
    assert [e][1..] == [];
  }

  /** Non-blank lines without line breaks, each terminated, are read back as the same lines. */
  lemma {:induction false} ReadTerminated(ls: seq<string>)
    requires forall k :: 0 <= k < |ls| ==> '\n' !in ls[k] && '\r' !in ls[k] && NonBlank(ls[k])
    ensures CsvLines(Terminated(ls)) == ls
  {
    var text := Terminated(ls);
    SplitTerminated(ls);
    TrimBreaksPlain(ls);
    assert SplitLines(text) == ls + [[]];
    FilterConcat(ls, [[]], NonBlank);
    FilterAll(ls);
    FilterDropsEmpty();
    assert ls + [] == ls;
  }

  /** The facts about one written line that reading it back needs. */
  lemma {:induction false} LineFacts(vs: seq<string>)
    requires |vs| >= 1
    requires forall k :: 0 <= k < |vs| ==> SafeValue(vs[k])
    ensures var line := Join(EscapeAll(vs), ",");
      '\n' !in line && '\r' !in line && NonBlank(line)
  {
    var es := EscapeAll(vs);
    forall k | 0 <= k < |es|
      ensures '\n' !in es[k] && '\r' !in es[k]
    {
      EscapeAllAt(vs, k);
      EscapeFree(vs[k], '\n');
      EscapeFree(vs[k], '\r');
    }
    JoinFree(es, ",", '\n');
    JoinFree(es, ",", '\r');
    assert es[0] == Escape(vs[0]) != [];
    JoinHead(es, ",");
    assert !IsSpace(es[0][0]);
    NonBlankStart(Join(es, ","));
  }

  // ---------------------------------------------------------------- the rows

  /** One key of a row holding exactly the given distinct columns is rebuilt from its written value. */
  lemma {:induction false} RebuildCell(headers: seq<string>, row: Row, k: nat)
    requires Distinct(headers) && k < |headers| && headers[k] in row.cells
    ensures headers[k] in ZipCells(headers, RowValues(headers, row))
    ensures ZipCells(headers, RowValues(headers, row))[headers[k]] == row.cells[headers[k]]
  {
    ZipCellsAt(headers, RowValues(headers, row), k);
  }

  /** The cells of a row holding exactly the given distinct columns are rebuilt from its written values. */
  lemma {:induction false} RebuildCells(headers: seq<string>, row: Row)
    requires Distinct(headers)
    requires forall h :: h in row.cells <==> h in headers
    ensures ZipCells(headers, RowValues(headers, row)) == row.cells
  {
    var m := ZipCells(headers, RowValues(headers, row));
    ZipCellsKeys(headers, RowValues(headers, row));
    forall h | h in m
      ensures h in row.cells && m[h] == row.cells[h]
    {
      assert h in headers;
      RebuildCell(headers, row, FirstIndex(headers, h));
    }
    SameMaps(m, row.cells);
  }

  lemma {:induction false} SameMaps(a: map<string, string>, b: map<string, string>)
    requires forall h :: h in a <==> h in b
    requires forall h :: h in a ==> a[h] == b[h]
    ensures a == b
  {
  }

  /** A row holding exactly the given distinct columns is rebuilt from its written values. */
  lemma {:induction false} RebuildRow(headers: seq<string>, row: Row)
    requires Distinct(headers) && row.keys == headers
    requires forall h :: h in row.cells <==> h in headers
    ensures MakeRow(headers, RowValues(headers, row)) == row
  {
    DedupOfDistinct(headers);
    RebuildCells(headers, row);
  }

  /** The values of a safe row are safe. */
  lemma {:induction false} RowValuesSafe(headers: seq<string>, row: Row)
    requires SafeRow(headers, row)
    ensures forall k :: 0 <= k < |RowValues(headers, row)| ==> SafeValue(RowValues(headers, row)[k])
  {
  }

  /** The line written for a safe row is a plain line that reads back as that row. */
  lemma {:induction false} RowReadsBack(headers: seq<string>, row: Row)
    requires |headers| >= 1 && Distinct(headers) && SafeRow(headers, row)
    ensures var line := RowLine(headers, row);
      '\n' !in line && '\r' !in line && NonBlank(line)
    ensures MakeRow(headers, ParseLine(RowLine(headers, row), ',')) == row
  {
    var vs := RowValues(headers, row);
    RowValuesSafe(headers, row);
    LineFacts(vs);
    ParseJoin(vs);
    RebuildRow(headers, row);
  }

  /** Column names need no escaping. */
  lemma {:induction false} EscapeAllPlain(vs: seq<string>)
    requires forall k :: 0 <= k < |vs| ==> !NeedsQuoting(vs[k])
    ensures EscapeAll(vs) == vs
  {
    if vs != [] {
      assert !NeedsQuoting(vs[0]);
      EscapeAllPlain(vs[1..]);
    }
  }

  lemma {:induction false} HeadersSafe(headers: seq<string>)
    requires forall k :: 0 <= k < |headers| ==> SafeHeader(headers[k])
    ensures forall k :: 0 <= k < |headers| ==> SafeValue(headers[k]) && !NeedsQuoting(headers[k])
  {
  }

  /** The header line of a safe table parses back into the column names and is a plain line. */
  lemma {:induction false} HeaderReadsBack(headers: seq<string>)
    requires |headers| >= 1
    requires forall k :: 0 <= k < |headers| ==> SafeHeader(headers[k])
    ensures ParseLine(Join(headers, ","), ',') == headers
    ensures '\n' !in Join(headers, ",") && '\r' !in Join(headers, ",") && NonBlank(Join(headers, ","))
  {
    HeadersSafe(headers);
    EscapeAllPlain(headers);
    ParseJoin(headers);
    LineFacts(headers);
  }

  /** The header line of a safe table sniffs as comma-separated. */
  lemma {:induction false} HeaderDelimiter(headers: seq<string>)
    requires forall k :: 0 <= k < |headers| ==> SafeHeader(headers[k])
    ensures Delimiter(Join(headers, ",")) == ','
  {
    var hl := Join(headers, ",");
    JoinFree(headers, ",", ';');
    JoinFree(headers, ",", '\t');
    CountAbsent(hl, ';');
    CountAbsent(hl, '\t');
    DelimiterSpec(hl);
  }

  /** Every line of the download of a safe table is a plain line. */
  lemma {:induction false} LinesPlain(headers: seq<string>, rows: seq<Row>)
    requires SafeTable(headers, rows)
    ensures var ls := [Join(headers, ",")] + RowLines(headers, rows);
      forall k :: 0 <= k < |ls| ==> '\n' !in ls[k] && '\r' !in ls[k] && NonBlank(ls[k])
  {
    var ls := [Join(headers, ",")] + RowLines(headers, rows);
    HeaderReadsBack(headers);
    forall k | 0 <= k < |ls|
      ensures '\n' !in ls[k] && '\r' !in ls[k] && NonBlank(ls[k])
    {
      if k > 0 {
        assert ls[k] == RowLine(headers, rows[k - 1]);
        RowReadsBack(headers, rows[k - 1]);
      }
    }
  }

  /** The download of a table whose lines are plain is read as its header line followed by one line per row. */
  lemma {:induction false} ReadLines(headers: seq<string>, rows: seq<Row>)
    requires var ls := [Join(headers, ",")] + RowLines(headers, rows);
      forall k :: 0 <= k < |ls| ==> '\n' !in ls[k] && '\r' !in ls[k] && NonBlank(ls[k])
    ensures CsvLines(CsvText(headers, rows)) == [Join(headers, ",")] + RowLines(headers, rows)
  {
    ReadTerminated([Join(headers, ",")] + RowLines(headers, rows));
  }

  /** The reader's result on text whose lines, delimiter and header are known. */
  lemma {:induction false} ParseCsvOfLines(text: string, ls: seq<string>, header: seq<string>)
    requires CsvLines(text) == ls && ls != []
    requires Delimiter(ls[0]) == ',' && ParseLine(ls[0], ',') == header
    ensures |ParseCsv(text)| == Min(|ls|, RowLimit) - 1
    ensures forall k :: 0 <= k < |ParseCsv(text)| ==> ParseCsv(text)[k] == MakeRow(header, ParseLine(ls[k + 1], ','))
  {
    ParseCsvShape(text);
  }

  /** Each row of a safe table is read back from its line. */
  lemma {:induction false} RowsReadBack(headers: seq<string>, rows: seq<Row>)
    requires SafeTable(headers, rows)
    ensures forall k :: 0 <= k < |rows| ==> MakeRow(headers, ParseLine(RowLine(headers, rows[k]), ',')) == rows[k]
  {
    forall k | 0 <= k < |rows|
      ensures MakeRow(headers, ParseLine(RowLine(headers, rows[k]), ',')) == rows[k]
    {
      RowReadsBack(headers, rows[k]);
    }
  }

  /** The round trip, from the facts about the header line and each row. */
  lemma {:induction false} RoundTripFromLines(headers: seq<string>, rows: seq<Row>)
    requires |headers| >= 1 && |rows| < RowLimit
    requires forall k :: 0 <= k < |headers| ==> SafeHeader(headers[k])
    requires var ls := [Join(headers, ",")] + RowLines(headers, rows);
      forall k :: 0 <= k < |ls| ==> '\n' !in ls[k] && '\r' !in ls[k] && NonBlank(ls[k])
    requires forall k :: 0 <= k < |rows| ==> MakeRow(headers, ParseLine(RowLine(headers, rows[k]), ',')) == rows[k]
    ensures ParseCsv(CsvText(headers, rows)) == rows
  {
    var text := CsvText(headers, rows);
    var ls := [Join(headers, ",")] + RowLines(headers, rows);
    ReadLines(headers, rows);
    HeaderReadsBack(headers);
    HeaderDelimiter(headers);
    ParseCsvOfLines(text, ls, headers);
    LinesOfRows(headers, rows);
    SameRows(ParseCsv(text), ls, headers, rows);
  }

  /** The lines of the download: the header line, then one line per row. */
  lemma {:induction false} LinesOfRows(headers: seq<string>, rows: seq<Row>)
    ensures var ls := [Join(headers, ",")] + RowLines(headers, rows);
      |ls| == |rows| + 1 && forall k :: 0 <= k < |rows| ==> ls[k + 1] == RowLine(headers, rows[k])
  {
    var ls := [Join(headers, ",")] + RowLines(headers, rows);
    forall k | 0 <= k < |rows| ensures ls[k + 1] == RowLine(headers, rows[k]) {
      assert ls[k + 1] == RowLines(headers, rows)[k];
    }
  }

  /** Rows read from lines that are the written rows' lines, each of which reads back, are the rows. */
  lemma {:induction false} SameRows(out: seq<Row>, ls: seq<string>, headers: seq<string>, rows: seq<Row>)
    requires |out| == |rows| && |ls| == |rows| + 1
    requires forall k :: 0 <= k < |out| ==> out[k] == MakeRow(headers, ParseLine(ls[k + 1], ','))
    requires forall k :: 0 <= k < |rows| ==> ls[k + 1] == RowLine(headers, rows[k])
    requires forall k :: 0 <= k < |rows| ==> MakeRow(headers, ParseLine(RowLine(headers, rows[k]), ',')) == rows[k]
    ensures out == rows
  {
    forall k | 0 <= k < |rows| ensures out[k] == rows[k] {
      assert ls[k + 1] == RowLine(headers, rows[k]);
    }
  }

  /** Reading back the CSV download of a safe table gives the same rows. */
  lemma {:induction false} RoundTrip(headers: seq<string>, rows: seq<Row>)
    requires SafeTable(headers, rows)
    ensures ParseCsv(CsvText(headers, rows)) == rows
  {
    LinesPlain(headers, rows);
    RowsReadBack(headers, rows);
    RoundTripFromLines(headers, rows);
  }

  /** The same for what the dataset preview's download writes: the table of the data's first-row keys. */
  lemma {:induction false} DownloadReadsBack(data: seq<Row>)
    requires data != [] && SafeTable(data[0].keys, data)
    ensures ParseCsv(CsvText(data[0].keys, data)) == data
  {
    RoundTrip(data[0].keys, data);
  }
}
