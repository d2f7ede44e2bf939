/**
 * The results screen: the processed rows, a preview of the first ten of
 * them, and a CSV download.  The download writes the column names unquoted
 * and wraps every value in double quotes without doubling the quotes a
 * value holds; lines are separated by line feeds, with none after the last.
 */
module ResultsDisplay {
  import opened JsText
  import opened Lists
  import opened Tabular
  import opened CsvWriter
  import opened CsvRoundTrip

  /** The columns: the keys of the first row, none without rows. */
  function ResultColumns(rows: seq<Row>): seq<string> {
    if rows == [] then [] else rows[0].keys
  }

  /** The rows shown: the first ten unless all are asked for. */
  function PreviewRows(rows: seq<Row>, showAll: bool): (r: seq<Row>)
    ensures showAll ==> r == rows
    ensures !showAll ==> r == rows[..if |rows| < 10 then |rows| else 10]
  {
    Shown(rows, showAll, 10)
  }

  /** `"${value}"`: wrapped in double quotes, as it is. */
  function Quoted(v: string): string {
    "\"" + v + "\""
  }

  function QuotedAll(vs: seq<string>): (r: seq<string>)
    ensures |r| == |vs|
    ensures forall k :: 0 <= k < |vs| ==> r[k] == Quoted(vs[k])
  {
    if vs == [] then [] else [Quoted(vs[0])] + QuotedAll(vs[1..])
  }

  /** One data line: every value of the row, missing ones empty, quoted and joined by commas. */
  function ResultLine(columns: seq<string>, row: Row): string {
    Join(QuotedAll(RowValues(columns, row)), ",")
  }

  function ResultLines(columns: seq<string>, rows: seq<Row>): (r: seq<string>)
    ensures |r| == |rows|
    ensures forall k :: 0 <= k < |rows| ==> r[k] == ResultLine(columns, rows[k])
  {
    if rows == [] then [] else [ResultLine(columns, rows[0])] + ResultLines(columns, rows[1..])
  }

  /** The downloaded text. */
  function ResultCsv(rows: seq<Row>): string {
    var columns := ResultColumns(rows);
    Join([Join(columns, ",")] + ResultLines(columns, rows), "\n")
  }

  /** The downloaded file's name. */
  function DownloadName(fileName: string): (r: string)
    ensures StartsWith(r, "processed_") && r[|"processed_"|..] == fileName
  {
    "processed_" + fileName
  }

  // ---- The lines ----

  lemma {:induction false} QuotedFree(vs: seq<string>, c: char)
    requires c != '"' && forall k :: 0 <= k < |vs| ==> c !in vs[k]
    ensures forall k :: 0 <= k < |vs| ==> c !in QuotedAll(vs)[k]
  {
  }

  lemma {:induction false} ResultLinesFree(columns: seq<string>, rows: seq<Row>)
    requires forall i, k :: 0 <= i < |rows| && 0 <= k < |columns| ==> '\n' !in CellText(rows[i], columns[k])
    ensures forall i :: 0 <= i < |rows| ==> '\n' !in ResultLine(columns, rows[i])
  {
    forall i | 0 <= i < |rows| ensures '\n' !in ResultLine(columns, rows[i]) {
      var vs := RowValues(columns, rows[i]);
      QuotedFree(vs, '\n');
      JoinFree(QuotedAll(vs), ",", '\n');
    }
  }

  /** Without line feeds in names and values, the text splits into the header line and one line per
      row: n rows give n + 1 lines and no empty line after the last. */
  lemma ResultCsvLines(rows: seq<Row>)
    requires forall k :: 0 <= k < |ResultColumns(rows)| ==> '\n' !in ResultColumns(rows)[k]
    requires forall i, k :: 0 <= i < |rows| && 0 <= k < |ResultColumns(rows)| ==>
               '\n' !in CellText(rows[i], ResultColumns(rows)[k])
    ensures var columns := ResultColumns(rows);
      Split(ResultCsv(rows), '\n') == [Join(columns, ",")] + ResultLines(columns, rows)
    ensures |Split(ResultCsv(rows), '\n')| == |rows| + 1
  {
    var columns := ResultColumns(rows);
    var lines := [Join(columns, ",")] + ResultLines(columns, rows);
    JoinFree(columns, ",", '\n');
    ResultLinesFree(columns, rows);
    assert forall k :: 0 <= k < |lines| ==> '\n' !in lines[k] by {
      forall k | 0 <= k < |lines| ensures '\n' !in lines[k] {
        if k > 0 {
          assert lines[k] == ResultLine(columns, rows[k - 1]);
        }
      }
    }
    SplitJoin(lines, '\n');
  }

  // ---- Reading a line back ----

  /** A value the quoting writes readably: safe for the reader and free of double quotes. */
  predicate Unquoted(v: string) {
    SafeValue(v) && '"' !in v
  }

  lemma {:induction false} DoubleQuotesNone(v: string)
    requires '"' !in v
    ensures DoubleQuotes(v) == v
  {
    if v != [] {
      DoubleQuotesNone(v[1..]);
    }
  }

  lemma {:induction false} QuotedAllCons(vs: seq<string>)
    requires vs != []
    ensures QuotedAll(vs)[0] == Quoted(vs[0]) && QuotedAll(vs)[1..] == QuotedAll(vs[1..])
  {
  }

  lemma {:induction false} QuotedForm(v: string)
    requires Unquoted(v)
    ensures Quoted(v) == ['"'] + DoubleQuotes(v) + ['"']
    ensures v != [] && v[0] != '"' && Trim(v) == v
  {
    DoubleQuotesNone(v);
    SafeReadable(v);
  }

  /** The first quoted value of a line and its delimiter are read as one field. */
  lemma {:induction false} ScanQuotedStep(qs: seq<string>, v: string, acc: seq<string>)
    requires |qs| > 1 && qs[0] == Quoted(v) && Unquoted(v)
    ensures Scan(Join(qs, ","), ',', [], false, acc) == Scan(Join(qs[1..], ","), ',', [], false, acc + [v])
  {
    var tail := Join(qs[1..], ",");
    var rest := "," + tail;
    JoinCons(qs, ",");
    QuotedForm(v);
    ScanQuoted(v, rest, acc);
    assert rest[1..] == tail;
    ScanDelimiter(rest, v, acc);
  }

  /** The last quoted value of a line is read as the last field. */
  lemma {:induction false} ScanQuotedLast(qs: seq<string>, v: string, acc: seq<string>)
    requires qs == [Quoted(v)] && Unquoted(v)
    ensures Scan(Join(qs, ","), ',', [], false, acc) == acc + [v]
  {
    assert Join(qs, ",") == Quoted(v) + [];
    QuotedForm(v);
    ScanQuoted(v, [], acc);
  }

  lemma {:induction false} UnquotedTail(vs: seq<string>)
    requires |vs| >= 1 && forall k :: 0 <= k < |vs| ==> Unquoted(vs[k])
    ensures forall k :: 0 <= k < |vs[1..]| ==> Unquoted(vs[1..][k])
  {
    forall k | 0 <= k < |vs[1..]| ensures Unquoted(vs[1..][k]) {
      assert vs[1..][k] == vs[k + 1];
    }
  }

  lemma {:induction false} ScanQuotedJoin(vs: seq<string>, acc: seq<string>)
    requires |vs| >= 1
    requires forall k :: 0 <= k < |vs| ==> Unquoted(vs[k])
    ensures Scan(Join(QuotedAll(vs), ","), ',', [], false, acc) == acc + vs
  {
    var qs := QuotedAll(vs);
    QuotedAllCons(vs);
    if |vs| == 1 {
      assert qs == [qs[0]];
      ScanQuotedLast(qs, vs[0], acc);
      assert vs == [vs[0]];
    } else {
      var rest := vs[1..];
      var acc' := acc + [vs[0]];
      AppendHead(acc, vs);
      UnquotedTail(vs);
      ScanQuotedStep(qs, vs[0], acc);
      ScanQuotedJoin(rest, acc');
    }
  }

  /** A line of values that hold no double quotes (and are otherwise safe for the reader) is read back
      as exactly those values. */
  lemma QuotedLineReadBack(vs: seq<string>)
    requires |vs| >= 1
    requires forall k :: 0 <= k < |vs| ==> Unquoted(vs[k])
    ensures ParseLine(Join(QuotedAll(vs), ","), ',') == vs
  {
    var line := Join(QuotedAll(vs), ",");
    QuotedAllCons(vs);
    JoinHead(QuotedAll(vs), ",");
    forall k | 0 <= k < |vs| ensures StripQuotes(vs[k]) == vs[k] {
      StripSafe(vs[k]);
    }
    ScanQuotedJoin(vs, []);
    assert [] + vs == vs;
    ParseLineOf(line, vs);
  }

  /** After a first field `u`, the rest `,v"` of the line gives a second field from `v`. */
  lemma {:induction false} ScanCommaTail(u: string, v: string)
    requires '"' !in v && ',' !in v
    ensures Scan([','] + v + ['"'], ',', u, false, []) == [Trim(u)] + [Trim(v)]
  {
    var q: string := ['"'];
    var t := v + q;
    var s := [','] + t;
    assert [','] + v + ['"'] == s;
    var none: seq<string> := [];
    var e: string := [];
    var first := [Trim(u)];
    assert s[1..] == t;
    ScanDelimiter(s, u, none);
    assert none + [Trim(u)] == first;
    ScanPlain(v, q, e, false, first);
    assert e + v == v;
    ScanToggle(q, v, false, first);
    assert q[1..] == e;
    calc {
      Scan(s, ',', u, false, none);
      Scan(t, ',', e, false, first);
      Scan(q, ',', v, false, first);
      Scan(e, ',', v, true, first);
      first + [Trim(v)];
    }
  }

  /** The quoted form of `u",v` is `u` in quotes followed by the rest `,v"`. */
  lemma {:induction false} QuotedSplitForm(u: string, v: string)
    ensures Quoted(u + "\"," + v) == ['"'] + u + ['"'] + ([','] + v + ['"'])
  {
    var q: string := ['"'];
    var qc: string := ['"', ','];
    assert "\"," == qc && "\"" == q;
    assert qc == q + [','];
    calc {
      Quoted(u + qc + v);
      q + (u + qc + v) + q;
      q + u + (q + [',']) + v + q;
      q + u + q + ([','] + v + q);
    }
  }

  /** The line written for a value `u",v` is scanned into the fields `u` and `v`. */
  lemma {:induction false} ScanQuoteComma(u: string, v: string)
    requires Unquoted(u) && Unquoted(v) && ',' !in v
    ensures Scan(Quoted(u + "\"," + v), ',', [], false, []) == [u, v]
  {
    var rest := [','] + v + ['"'];
    QuotedForm(u);
    QuotedForm(v);
    DoubleQuotesNone(u);
    QuotedSplitForm(u, v);
    ScanQuoted(u, rest, []);
    ScanCommaTail(u, v);
    PairOf(u, v);
  }

  lemma {:induction false} PairOf(u: string, v: string)
    requires Trim(u) == u && Trim(v) == v
    ensures [Trim(u)] + [Trim(v)] == [u, v]
  {
  }

  /** Because the quotes a value holds are not doubled, a value `u",v` is read back as the two values
      `u` and `v`. */
  lemma QuoteInValueSplits(u: string, v: string)
    requires Unquoted(u) && Unquoted(v) && ',' !in v
    ensures ParseLine(Join(QuotedAll([u + "\"," + v]), ","), ',') == [u, v]
  {
    var line := Quoted(u + "\"," + v);
    assert Join(QuotedAll([u + "\"," + v]), ",") == line by {
      assert QuotedAll([u + "\"," + v]) == [line];
    }
    ScanQuoteComma(u, v);
    StripSafe(u);
    StripSafe(v);
    var fields := [u, v];
    assert forall k :: 0 <= k < |fields| ==> StripQuotes(fields[k]) == fields[k];
    ParseLineOf(line, fields);
  }
}
