/**
 * The CSV branch of the dataset preview's download: a header line of the
 * column names, then one line per row in which a value holding a comma, a
 * double quote or a line feed is wrapped in double quotes with its own double
 * quotes doubled; every line ends with a line feed.  Also the download file
 * name, which replaces the last extension.
 */
module CsvWriter {
  import opened JsText
  import opened Lists
  import opened Wrappers
  import opened Tabular

  /** `/[,"\n]/.test(value)`. */
  predicate NeedsQuoting(v: string) {
    ',' in v || '"' in v || '\n' in v
  }

  /** `value.replace(/"/g, '""')`. */
  function DoubleQuotes(v: string): (r: string)
    ensures |r| == |v| + Count(v, '"')
  {
    if v == [] then [] else (if v[0] == '"' then ['"', '"'] else [v[0]]) + DoubleQuotes(v[1..])
  }

  /** A value as it is written into a line. */
  function Escape(v: string): string {
    if NeedsQuoting(v) then ['"'] + DoubleQuotes(v) + ['"'] else v
  }

  /** Each value escaped, in order. */
  function EscapeAll(vs: seq<string>): (r: seq<string>)
    ensures |r| == |vs|
  {
    if vs == [] then [] else [Escape(vs[0])] + EscapeAll(vs[1..])
  }

  /** `row[header] || ''`. */
  function CellText(row: Row, h: string): string {
    if h in row.cells then row.cells[h] else ""
  }

  /** The values of one row, in column order. */
  function RowValues(headers: seq<string>, row: Row): (r: seq<string>)
    ensures |r| == |headers|
    ensures forall k :: 0 <= k < |headers| ==> r[k] == CellText(row, headers[k])
  {
    if headers == [] then [] else [CellText(row, headers[0])] + RowValues(headers[1..], row)
  }

  /** One data line, without its line feed. */
  function RowLine(headers: seq<string>, row: Row): string {
    Join(EscapeAll(RowValues(headers, row)), ",")
  }

  /** The data lines, one per row. */
  function RowLines(headers: seq<string>, rows: seq<Row>): (r: seq<string>)
    ensures |r| == |rows|
    ensures forall k :: 0 <= k < |rows| ==> r[k] == RowLine(headers, rows[k])
  {
    if rows == [] then [] else [RowLine(headers, rows[0])] + RowLines(headers, rows[1..])
  }

  /** Lines, each followed by a line feed. */
  function Terminated(lines: seq<string>): string {
    if lines == [] then [] else lines[0] + "\n" + Terminated(lines[1..])
  }

  /** The whole file: the unquoted header line, then the data lines. */
  function CsvText(headers: seq<string>, rows: seq<Row>): string {
    Terminated([Join(headers, ",")] + RowLines(headers, rows))
  }

  lemma {:induction false} TerminatedAppend(lines: seq<string>, x: string)
    ensures Terminated(lines + [x]) == Terminated(lines) + x + "\n"
  {
    if lines == [] {
      assert [] + [x] == [x];
      assert [x][1..] == [];
    } else {
      assert (lines + [x])[1..] == lines[1..] + [x];
      TerminatedAppend(lines[1..], x);
    }
  }

  /** The text has one line feed per line, and each line is followed by one. */
  lemma {:induction false} TerminatedCount(lines: seq<string>)
    requires forall k :: 0 <= k < |lines| ==> '\n' !in lines[k]
    ensures Count(Terminated(lines), '\n') == |lines|
  {
    if lines != [] {
      TerminatedCount(lines[1..]);
      CountAppend(lines[0], "\n");
      CountAppend(lines[0] + "\n", Terminated(lines[1..]));
      CountAbsent(lines[0], '\n');
    }
  }

  lemma {:induction false} CountAppend(a: string, b: string)
    ensures Count(a + b, '\n') == Count(a, '\n') + Count(b, '\n')
  {
    if a != [] {
      assert (a + b)[1..] == a[1..] + b;
      CountAppend(a[1..], b);
    } else {
      assert a + b == b;
    }
  }

  lemma {:induction false} CountAbsent(s: string, c: char)
    requires c !in s
    ensures Count(s, c) == 0
  {
    if s != [] {
      CountAbsent(s[1..], c);
    }
  }

  /** The content the download loop builds: the header line, then each row's line. */
  method CsvContent(headers: seq<string>, data: seq<Row>) returns (content: string)
    ensures content == CsvText(headers, data)
  {
    content := Join(headers, ",") + "\n";
    assert Terminated([Join(headers, ",")]) == content;
    for i := 0 to |data|
      invariant content == Terminated([Join(headers, ",")] + RowLines(headers, data[..i]))
    {
      var line := RowLine(headers, data[i]);
      CsvTextStep(headers, data, i);
      content := content + line + "\n";
    }
    assert data[..|data|] == data;
  }

  lemma CsvTextStep(headers: seq<string>, data: seq<Row>, i: nat)
    requires i < |data|
    ensures Terminated([Join(headers, ",")] + RowLines(headers, data[..i + 1]))
         == Terminated([Join(headers, ",")] + RowLines(headers, data[..i])) + RowLine(headers, data[i]) + "\n"
  {
    var hl := [Join(headers, ",")];
    var line := RowLine(headers, data[i]);
    var before := RowLines(headers, data[..i]);
    assert data[..i + 1] == data[..i] + [data[i]];
    RowLinesAppend(headers, data[..i], data[i]);
    TerminatedAfter(hl, before, line);
  }

  lemma TerminatedAfter(first: seq<string>, lines: seq<string>, x: string)
    ensures Terminated(first + (lines + [x])) == Terminated(first + lines) + x + "\n"
  {
    assert first + (lines + [x]) == (first + lines) + [x];
    TerminatedAppend(first + lines, x);
  }

  lemma {:induction false} RowLinesAppend(headers: seq<string>, rows: seq<Row>, r: Row)
    ensures RowLines(headers, rows + [r]) == RowLines(headers, rows) + [RowLine(headers, r)]
  {
    if rows == [] {
      assert rows + [r] == [r];
    } else {
      assert (rows + [r])[1..] == rows[1..] + [r];
      RowLinesAppend(headers, rows[1..], r);
    }
  }

  /** `filename.replace(/\.[^/.]+$/, '')`: a final `.ext` with no `/` in it is dropped. */
  function StripExtension(name: string): (r: string)
    ensures |r| <= |name| && r == name[..|r|]
  {
    var k := LastIndexOf(name, '.');
    if k >= 0 && k + 1 < |name| && '/' !in name[k + 1..] then name[..k] else name
  }

  /** What is dropped is a dot followed by a non-empty extension holding neither `.` nor `/`;
      a name without such an ending is kept whole. */
  lemma StripExtensionSpec(name: string)
    ensures var r := StripExtension(name);
      r != name ==>
        var ext := name[|r|..];
        |ext| >= 2 && ext[0] == '.' && '.' !in ext[1..] && '/' !in ext[1..]
    ensures '.' !in name ==> StripExtension(name) == name
  {
    var k := LastIndexOf(name, '.');
    if k >= 0 && k + 1 < |name| && '/' !in name[k + 1..] {
      var ext := name[k..];
      assert ext[1..] == name[k + 1..];
      forall j | 0 <= j < |ext[1..]|
        ensures ext[1..][j] != '.'
      {
        assert ext[1..][j] == name[k + 1 + j];
      }
    }
    if '.' !in name {
      assert k == -1;
    }
  }

  /** `filename ? base(filename) : 'dataset'`. */
  function BaseFileName(fileName: string): string {
    if fileName == [] then "dataset" else StripExtension(fileName)
  }

  /** What a download produces. */
  datatype Download =
    | NoData                                      // "No data to download"
    | Spreadsheet(fileName: string)               // written by the spreadsheet library
    | CsvFile(fileName: string, content: string)

  /** `downloadCurrentDataset`: spreadsheet when the name or the type says so, otherwise CSV. */
  predicate WantsSpreadsheet(fileName: string, datasetType: Option<string>) {
    EndsWith(ToLower(fileName), ".xlsx") || EndsWith(ToLower(fileName), ".xls") || datasetType == Some("xlsx")
  }

  method DownloadCurrentDataset(data: seq<Row>, fileName: string, datasetType: Option<string>) returns (d: Download)
    ensures data == [] ==> d == NoData
    ensures data != [] && WantsSpreadsheet(fileName, datasetType) ==> d == Spreadsheet(BaseFileName(fileName) + ".xlsx")
    ensures data != [] && !WantsSpreadsheet(fileName, datasetType) ==>
              d == CsvFile(BaseFileName(fileName) + ".csv", CsvText(data[0].keys, data))
  {
    if |data| == 0 {
      return NoData;
    }
    var headers := data[0].keys;
    if WantsSpreadsheet(fileName, datasetType) {
      return Spreadsheet(BaseFileName(fileName) + ".xlsx");
    }
    var content := CsvContent(headers, data);
    d := CsvFile(BaseFileName(fileName) + ".csv", content);
  }

  /** The name the dataset preview passes: the dataset's name, else the uploaded file's name, else `dataset`. */
  function DownloadName(datasetName: Option<string>, fileName: Option<string>): (r: string)
    ensures r != []
  {
    if datasetName.Some? && datasetName.value != [] then datasetName.value
    else if fileName.Some? && fileName.value != [] then fileName.value
    else "dataset"
  }
}
