/**
 * The client-side table parser shared by the dataset preview, the data
 * preview and the campaign details pages: a CSV reader (line splitting,
 * delimiter sniffing, a quote-aware field scanner, header zip with a row
 * cap) and the zip of a spreadsheet grid against its first row.
 *
 * A parsed row is a JavaScript object: its keys in insertion order and its
 * values.  Filling an object by assigning `row[header[k]] = value_k` for
 * k = 0, 1, ... gives keys in first-occurrence order, and for a repeated
 * header the value of its last position.
 */
module Tabular {
  import opened JsText
  import opened Lists
  import opened Wrappers

  /** A parsed row: `Object.keys(row)` and the key/value pairs. */
  datatype Row = Row(keys: seq<string>, cells: map<string, string>)

  /** `values[k] || ''`: a missing or empty value becomes the empty string. */
  function ValueAt(values: seq<string>, k: nat): string {
    if k < |values| then values[k] else ""
  }

  /** The object filled by `header.forEach((col, k) => row[col] = values[k] || '')`. */
  function ZipCells(header: seq<string>, values: seq<string>): map<string, string> {
    if header == [] then map[]
    else ZipCells(header[..|header| - 1], values)[header[|header| - 1] := ValueAt(values, |header| - 1)]
  }

  /** The row built from a header and one line's values. */
  function MakeRow(header: seq<string>, values: seq<string>): Row {
    Row(Dedup(header), ZipCells(header, values))
  }

  /** The keys of a zipped row are exactly the header names. */
  lemma {:induction false} ZipCellsKeys(header: seq<string>, values: seq<string>)
    ensures forall h :: h in ZipCells(header, values) <==> h in header
  {
    if header != [] {
      var p := header[..|header| - 1];
      ZipCellsKeys(p, values);
      assert forall h :: h in header <==> h in p || h == header[|header| - 1];
    }
  }

  /** Under a header without repeats, the value under `header[k]` is the k-th value (or '' past the end). */
  lemma {:induction false} ZipCellsAt(header: seq<string>, values: seq<string>, k: nat)
    requires Distinct(header) && k < |header|
    ensures header[k] in ZipCells(header, values)
    ensures ZipCells(header, values)[header[k]] == ValueAt(values, k)
  {
    var n := |header| - 1;
    var p := header[..n];
    if k < n {
      assert Distinct(p);
      ZipCellsAt(p, values, k);
      assert p[k] == header[k] != header[n];
    }
  }

  /** Under a header with repeats, the value under a name comes from its last position. */
  lemma {:induction false} ZipCellsLastWins(header: seq<string>, values: seq<string>, k: nat)
    requires k < |header|
    requires forall j :: k < j < |header| ==> header[j] != header[k]
    ensures header[k] in ZipCells(header, values)
    ensures ZipCells(header, values)[header[k]] == ValueAt(values, k)
  {
    var n := |header| - 1;
    if k < n {
      var p := header[..n];
      ZipCellsLastWins(p, values, k);
    }
  }

  /** A built row lists every key once, in first-occurrence order, and its keys are its cells' names. */
  lemma MakeRowShape(header: seq<string>, values: seq<string>)
    ensures Distinct(MakeRow(header, values).keys)
    ensures forall h :: h in MakeRow(header, values).keys <==> h in MakeRow(header, values).cells
    ensures forall h :: h in MakeRow(header, values).keys <==> h in header
    ensures Distinct(header) ==> MakeRow(header, values).keys == header
  {
    DedupDistinct(header);
    DedupMembers(header);
    ZipCellsKeys(header, values);
    if Distinct(header) {
      DedupOfDistinct(header);
    }
  }

  /** The `forEach` that fills one row object, key by key. */
  method ZipRow(header: seq<string>, values: seq<string>) returns (row: Row)
    ensures row == MakeRow(header, values)
  {
    var keys: seq<string> := [];
    var cells: map<string, string> := map[];
    for k := 0 to |header|
      invariant keys == Dedup(header[..k])
      invariant cells == ZipCells(header[..k], values)
    {
      assert header[..k + 1][..k] == header[..k];
      var name := header[k];
      if name !in keys {
        keys := keys + [name];
      }
      cells := cells[name := ValueAt(values, k)];
    }
    assert header[..|header|] == header;
    row := Row(keys, cells);
  }

  // ---------------------------------------------------------------- lines

  /** Drops one trailing carriage return. */
  function DropCR(s: string): string {
    if |s| > 0 && s[|s| - 1] == '\r' then s[..|s| - 1] else s
  }

  /** Every piece but the last loses the `\r` of a `\r\n` break. */
  function TrimBreaks(pieces: seq<string>): (r: seq<string>)
    ensures |r| == |pieces|
  {
    if |pieces| <= 1 then pieces else [DropCR(pieces[0])] + TrimBreaks(pieces[1..])
  }

  /** `text.split(/\r?\n/)`. */
  function SplitLines(text: string): (r: seq<string>)
    ensures |r| == Count(text, '\n') + 1
  {
    TrimBreaks(Split(text, '\n'))
  }

  /** `line.trim() !== ''`. */
  predicate NonBlank(line: string) {
    Trim(line) != []
  }

  /** The lines the CSV reader works on: split, with the blank ones dropped. */
  function CsvLines(text: string): seq<string> {
    Filter(SplitLines(text), NonBlank)
  }

  // ------------------------------------------------------------ delimiter

  /** The delimiter sniffed from the first line: `;` or tab when the line splits into more pieces on it than on `,`. */
  function Delimiter(first: string): char {
    if Includes(first, [';']) && |Split(first, ';')| > |Split(first, ',')| then ';'
    else if Includes(first, ['\t']) && |Split(first, '\t')| > |Split(first, ',')| then '\t'
    else ','
  }

  lemma {:induction false} CountPositive(s: string, c: char)
    requires Count(s, c) > 0
    ensures c in s
  {
    if s[0] != c {
      CountPositive(s[1..], c);
    }
  }

  /** The sniffed delimiter depends only on how often `;`, tab and `,` occur; the `includes` tests are implied. */
  lemma DelimiterSpec(first: string)
    ensures Delimiter(first) == ';' <==> Count(first, ';') > Count(first, ',')
    ensures Delimiter(first) == '\t' <==> Count(first, ';') <= Count(first, ',') && Count(first, '\t') > Count(first, ',')
    ensures Delimiter(first) == ',' <==> Count(first, ';') <= Count(first, ',') && Count(first, '\t') <= Count(first, ',')
  {
    IncludesChar(first, ';');
    IncludesChar(first, '\t');
    if Count(first, ';') > Count(first, ',') {
      CountPositive(first, ';');
    }
    if Count(first, '\t') > Count(first, ',') {
      CountPositive(first, '\t');
    }
  }

  // ---------------------------------------------------------------- fields

  /**
   * The field scanner's state machine from the current position to the end of
   * the line: `cur` is the field being built, `inQ` the quote state, `acc` the
   * fields pushed so far.  A `""` pair appends one `"`; a lone `"` flips the
   * quote state; an unquoted delimiter pushes the trimmed field.
   */
  function Scan(s: string, d: char, cur: string, inQ: bool, acc: seq<string>): seq<string>
    decreases |s|
  {
    if s == [] then acc + [Trim(cur)]
    else if s[0] == '"' then
      if |s| > 1 && s[1] == '"' then Scan(s[2..], d, cur + ['"'], inQ, acc)
      else Scan(s[1..], d, cur, !inQ, acc)
    else if s[0] == d && !inQ then Scan(s[1..], d, [], inQ, acc + [Trim(cur)])
    else Scan(s[1..], d, cur + [s[0]], inQ, acc)
  }

  /** `field.replace(/^"|"$/g, '')`: one leading and then one trailing quote removed. */
  function StripQuotes(f: string): (r: string)
    ensures |r| <= |f|
  {
    var a := if |f| > 0 && f[0] == '"' then f[1..] else f;
    if |a| > 0 && a[|a| - 1] == '"' then a[..|a| - 1] else a
  }

  /** The fields of one line. */
  function ParseLine(line: string, d: char): seq<string> {
    if line == [] then [] else Map(Scan(line, d, [], false, []), StripQuotes)
  }

  /** The number of delimiters that stand outside quotes, under the scanner's quote rules. */
  function UnquotedDelimiters(s: string, d: char, inQ: bool): nat
    decreases |s|
  {
    if s == [] then 0
    else if s[0] == '"' then
      if |s| > 1 && s[1] == '"' then UnquotedDelimiters(s[2..], d, inQ)
      else UnquotedDelimiters(s[1..], d, !inQ)
    else if s[0] == d && !inQ then 1 + UnquotedDelimiters(s[1..], d, inQ)
    else UnquotedDelimiters(s[1..], d, inQ)
  }

  /** The scanner pushes one field per unquoted delimiter and one more at the end. */
  lemma {:induction false} ScanCount(s: string, d: char, cur: string, inQ: bool, acc: seq<string>)
    ensures |Scan(s, d, cur, inQ, acc)| == |acc| + UnquotedDelimiters(s, d, inQ) + 1
    decreases |s|
  {
    if s == [] {
    } else if s[0] == '"' {
      if |s| > 1 && s[1] == '"' {
        ScanCount(s[2..], d, cur + ['"'], inQ, acc);
      } else {
        ScanCount(s[1..], d, cur, !inQ, acc);
      }
    } else if s[0] == d && !inQ {
      ScanCount(s[1..], d, [], inQ, acc + [Trim(cur)]);
    } else {
      ScanCount(s[1..], d, cur + [s[0]], inQ, acc);
    }
  }

  /** Every field the scanner pushes is trimmed. */
  lemma {:induction false} ScanTrimmed(s: string, d: char, cur: string, inQ: bool, acc: seq<string>)
    requires forall k :: 0 <= k < |acc| ==> Trimmed(acc[k])
    ensures forall k :: 0 <= k < |Scan(s, d, cur, inQ, acc)| ==> Trimmed(Scan(s, d, cur, inQ, acc)[k])
    decreases |s|
  {
    if s == [] {
      TrimSpec(cur);
    } else if s[0] == '"' {
      if |s| > 1 && s[1] == '"' {
        ScanTrimmed(s[2..], d, cur + ['"'], inQ, acc);
      } else {
        ScanTrimmed(s[1..], d, cur, !inQ, acc);
      }
    } else if s[0] == d && !inQ {
      TrimSpec(cur);
      ScanTrimmed(s[1..], d, [], inQ, acc + [Trim(cur)]);
    } else {
      ScanTrimmed(s[1..], d, cur + [s[0]], inQ, acc);
    }
  }

  /** A non-empty line yields one field per unquoted delimiter plus one; only the empty line yields none. */
  lemma ParseLineCount(line: string, d: char)
    ensures line == [] ==> ParseLine(line, d) == []
    ensures line != [] ==> |ParseLine(line, d)| == UnquotedDelimiters(line, d, false) + 1
  {
    ScanCount(line, d, [], false, []);
  }

  /** The scanner's fields are trimmed before the quote strip. */
  lemma ParseLineFields(line: string, d: char)
    requires line != []
    ensures ParseLine(line, d) == Map(Scan(line, d, [], false, []), StripQuotes)
    ensures forall k :: 0 <= k < |Scan(line, d, [], false, [])| ==> Trimmed(Scan(line, d, [], false, [])[k])
  {
    ScanTrimmed(line, d, [], false, []);
  }

  /** The `parseCSVLine` loop. */
  method ParseCsvLine(line: string, d: char) returns (fields: seq<string>)
    ensures fields == ParseLine(line, d)
    ensures |fields| == if line == [] then 0 else UnquotedDelimiters(line, d, false) + 1
  {
    ParseLineCount(line, d);
    if line == [] {
      return [];
    }
    var result: seq<string> := [];
    var current: string := [];
    var inQuotes := false;
    var i := 0;
    while i < |line|
      invariant 0 <= i <= |line|
      invariant Scan(line[i..], d, current, inQuotes, result) == Scan(line, d, [], false, [])
      decreases |line| - i
    {
      var c := line[i];
      if c == '"' {
        if i + 1 < |line| && line[i + 1] == '"' {
          assert line[i..][2..] == line[i + 2..];
          current := current + ['"'];
          i := i + 2;
          continue;
        }
        inQuotes := !inQuotes;
      } else if c == d && !inQuotes {
        result := result + [Trim(current)];
        current := [];
      } else {
        current := current + [c];
      }
      assert line[i..][1..] == line[i + 1..];
      i := i + 1;
    }
    result := result + [Trim(current)];
    fields := [];
    for k := 0 to |result|
      invariant fields == Map(result[..k], StripQuotes)
    {
      assert result[..k + 1] == result[..k] + [result[k]];
      MapAppend(result[..k], result[k], StripQuotes);
      fields := fields + [StripQuotes(result[k])];
    }
    assert result[..|result|] == result;
  }

  lemma MapAppend<T, U>(s: seq<T>, x: T, f: T -> U)
    ensures Map(s + [x], f) == Map(s, f) + [f(x)]
  {
  }

  // ------------------------------------------------------------------ CSV

  /** The row cap: data lines are taken from indices 1 up to but excluding min(lines, 1000). */
  const RowLimit: nat := 1000

  function Min(a: int, b: int): int {
    if a < b then a else b
  }

  /** The rows for the given data lines: one per line that has any field. */
  function DataRows(header: seq<string>, lines: seq<string>, d: char): seq<Row> {
    if lines == [] then []
    else
      var values := ParseLine(lines[0], d);
      (if values == [] then [] else [MakeRow(header, values)]) + DataRows(header, lines[1..], d)
  }

  /** `parseCSVContent` on decoded text. */
  function ParseCsv(text: string): seq<Row> {
    var lines := CsvLines(text);
    if lines == [] then []
    else
      var d := Delimiter(lines[0]);
      var header := ParseLine(lines[0], d);
      if header == [] then []
      else DataRows(header, lines[1..Min(|lines|, RowLimit)], d)
  }

  /** The `parseCSVContent` row loop, pushing one row per data line. */
  method ParseCsvContent(text: string) returns (data: seq<Row>)
    ensures data == ParseCsv(text)
  {
    var lines := CsvLines(text);
    if |lines| == 0 {
      return [];
    }
    var d := Delimiter(lines[0]);
    var header := ParseCsvLine(lines[0], d);
    if |header| == 0 {
      return [];
    }
    data := ParseDataLines(header, lines[1..Min(|lines|, RowLimit)], d);
  }

  /** The data-row loop over the lines after the header, below the cap. */
  method ParseDataLines(header: seq<string>, lines: seq<string>, d: char) returns (data: seq<Row>)
    ensures data == DataRows(header, lines, d)
  {
    data := [];
    var i := 0;
    while i < |lines|
      invariant 0 <= i <= |lines|
      invariant data + DataRows(header, lines[i..], d) == DataRows(header, lines, d)
    {
      var values := ParseCsvLine(lines[i], d);
      DataRowsLoopStep(header, lines, d, i, data);
      if |values| == 0 {
        i := i + 1;
        continue;
      }
      var row := ZipRow(header, values);
      data := data + [row];
      i := i + 1;
    }
  }

  /** One turn of the row loop keeps what is built plus what is left equal to all the rows. */
  lemma DataRowsLoopStep(header: seq<string>, lines: seq<string>, d: char, i: nat, data: seq<Row>)
    requires i < |lines|
    requires data + DataRows(header, lines[i..], d) == DataRows(header, lines, d)
    ensures var values := ParseLine(lines[i], d);
      (if values == [] then data else data + [MakeRow(header, values)]) + DataRows(header, lines[i + 1..], d)
        == DataRows(header, lines, d)
  {
    var values := ParseLine(lines[i], d);
    var todo := DataRows(header, lines[i..], d);
    var rest := DataRows(header, lines[i + 1..], d);
    var part: seq<Row> := if values == [] then [] else [MakeRow(header, values)];
    DataRowsStep(header, lines[i..], d);
    assert lines[i..][1..] == lines[i + 1..];
    assert todo == part + rest;
    ShiftPart(data, todo, part, rest, DataRows(header, lines, d));
    if values == [] {
      assert data + part == data;
    }
  }

  lemma DataRowsStep(header: seq<string>, lines: seq<string>, d: char)
    requires lines != []
    ensures DataRows(header, lines, d)
         == (if ParseLine(lines[0], d) == [] then [] else [MakeRow(header, ParseLine(lines[0], d))]) + DataRows(header, lines[1..], d)
  {
  }

  /** Non-blank lines are never empty, so every data line yields a row. */
  lemma {:induction false} DataRowsCount(header: seq<string>, lines: seq<string>, d: char)
    requires forall k :: 0 <= k < |lines| ==> lines[k] != []
    ensures |DataRows(header, lines, d)| == |lines|
    ensures forall k :: 0 <= k < |lines| ==> DataRows(header, lines, d)[k] == MakeRow(header, ParseLine(lines[k], d))
  {
    if lines != [] {
      ParseLineCount(lines[0], d);
      DataRowsCount(header, lines[1..], d);
    }
  }

  lemma NonBlankNotEmpty(text: string)
    ensures forall k :: 0 <= k < |CsvLines(text)| ==> CsvLines(text)[k] != []
  {
    FilterMembers(SplitLines(text), NonBlank);
    forall k | 0 <= k < |CsvLines(text)|
      ensures CsvLines(text)[k] != []
    {
      assert CsvLines(text)[k] in CsvLines(text);
    }
  }

  /**
   * The shape of a CSV parse: with n non-blank lines, n = 0 gives no rows and
   * otherwise there are min(n, 1000) - 1 rows (so at most 999, and none for a
   * header-only text); row i comes from non-blank line i + 1 and is keyed by the header.
   */
  lemma ParseCsvShape(text: string)
    ensures var lines := CsvLines(text);
      && (lines == [] ==> ParseCsv(text) == [])
      && (lines != [] ==>
            var d := Delimiter(lines[0]);
            var header := ParseLine(lines[0], d);
            && |ParseCsv(text)| == Min(|lines|, RowLimit) - 1
            && forall k :: 0 <= k < |ParseCsv(text)| ==> ParseCsv(text)[k] == MakeRow(header, ParseLine(lines[k + 1], d)))
  {
    var lines := CsvLines(text);
    NonBlankNotEmpty(text);
    if lines != [] {
      var d := Delimiter(lines[0]);
      var header := ParseLine(lines[0], d);
      ParseLineCount(lines[0], d);
      var cap := Min(|lines|, RowLimit);
      var body := lines[1..cap];
      assert lines[0] != [] && header != [];
      assert ParseCsv(text) == DataRows(header, body, d);
      CappedRows(header, lines, d);
    }
  }

  /** The rows of the lines after the first, below the cap: one per line, in order. */
  lemma CappedRows(header: seq<string>, lines: seq<string>, d: char)
    requires lines != [] && forall k :: 0 <= k < |lines| ==> lines[k] != []
    ensures var rows := DataRows(header, lines[1..Min(|lines|, RowLimit)], d);
      && |rows| == Min(|lines|, RowLimit) - 1
      && forall k :: 0 <= k < |rows| ==> rows[k] == MakeRow(header, ParseLine(lines[k + 1], d))
  {
    var body := lines[1..Min(|lines|, RowLimit)];
    assert forall k :: 0 <= k < |body| ==> body[k] == lines[k + 1] && body[k] != [];
    DataRowsCount(header, body, d);
  }

  /** At most 999 rows come out of any text. */
  lemma ParseCsvAtMost999(text: string)
    ensures |ParseCsv(text)| <= RowLimit - 1
  {
    ParseCsvShape(text);
  }

  /** A header line alone gives no rows: the same outcome as an empty file. */
  lemma HeaderOnlyIsEmpty(text: string)
    requires |CsvLines(text)| == 1
    ensures ParseCsv(text) == []
  {
    ParseCsvShape(text);
  }

  // ---------------------------------------------------------------- sheets

  /** What reading the first worksheet of a workbook gives, after `atob` succeeded. */
  datatype Sheet =
    | ReadFailed                          // `XLSX.read` or `sheet_to_json` threw
    | NoSheet                             // the workbook has no first worksheet
    | Grid(rows: seq<seq<string>>)        // `sheet_to_json(ws, {header: 1, defval: '', raw: false})`

  /** The rows zipped against the first grid row, one per later grid row. */
  function GridRows(header: seq<string>, rest: seq<seq<string>>): (r: seq<Row>)
    ensures |r| == |rest|
    ensures forall k :: 0 <= k < |rest| ==> r[k] == MakeRow(header, rest[k])
  {
    if rest == [] then [] else [MakeRow(header, rest[0])] + GridRows(header, rest[1..])
  }

  /** `parseXLSXWithSheetJS`: a failed decode, a failed read, a missing sheet and an empty grid all give `[]`. */
  function XlsxRows(decoded: Option<string>, sheet: Sheet): seq<Row> {
    if decoded.None? then []
    else match sheet
      case ReadFailed => []
      case NoSheet => []
      case Grid(g) => if g == [] then [] else GridRows(g[0], g[1..])
  }

  /** The grid loop of `parseXLSXWithSheetJS`: every row after the first, with no cap. */
  method ParseXlsx(decoded: Option<string>, sheet: Sheet) returns (data: seq<Row>)
    ensures data == XlsxRows(decoded, sheet)
    ensures sheet.Grid? && decoded.Some? && sheet.rows != [] ==> |data| == |sheet.rows| - 1
    ensures !(sheet.Grid? && decoded.Some?) ==> data == []
  {
    if decoded.None? || !sheet.Grid? || |sheet.rows| == 0 {
      return [];
    }
    var g := sheet.rows;
    var header := g[0];
    data := [];
    for i := 1 to |g|
      invariant |data| == i - 1
      invariant forall k :: 0 <= k < i - 1 ==> data[k] == MakeRow(header, g[k + 1])
    {
      var row := ZipRow(header, g[i]);
      data := data + [row];
    }
  }
}
