/**
 * Turning a dataset returned by the server into preview rows.  The dataset
 * preview and the data preview pages run the same chain: the primary parser
 * (spreadsheet or CSV, chosen by type and name), a CSV retry for
 * spreadsheets, a JSON array attempt, and an error.  The campaign details
 * page runs the primary parser alone.
 *
 * The foreign decoders (`atob`, the spreadsheet reader, `JSON.parse`) are not
 * modelled: a dataset carries what each of them yields on its content.
 */
module DatasetPreview {
  import opened JsText
  import opened Lists
  import opened Wrappers
  import opened Tabular

  /** A dataset from the server, with the outcomes of the foreign decoders on its content. */
  datatype Dataset = Dataset(
    datasetType: Option<string>,
    datasetName: Option<string>,
    content: string,
    decoded: Option<string>,   // `atob(content)`; None when it throws
    sheet: Sheet,              // the first worksheet of the decoded workbook
    json: Option<seq<Row>>)    // `JSON.parse(decoded)` when that is an array of objects; None when it throws or is not an array

  /** `name?.toLowerCase().endsWith(suffix)`. */
  predicate NameEndsWith(name: Option<string>, suffix: string) {
    name.Some? && EndsWith(ToLower(name.value), suffix)
  }

  /** Datasets the preview accepts: CSV or XLSX by type or by file name. */
  predicate IsSupported(ds: Dataset) {
    ds.datasetType == Some("csv") || ds.datasetType == Some("xlsx")
    || NameEndsWith(ds.datasetName, ".csv") || NameEndsWith(ds.datasetName, ".xlsx")
  }

  /** Datasets read as spreadsheets: XLSX by type or by file name. */
  predicate IsXlsx(ds: Dataset) {
    ds.datasetType == Some("xlsx") || NameEndsWith(ds.datasetName, ".xlsx")
  }

  /** Which attempt produced the rows. */
  datatype Source = Primary | CsvFallback | JsonArray

  /** Why no rows were produced. */
  datatype Failure =
    | Unsupported(datasetType: Option<string>)   // "Unsupported dataset type: ..."
    | AllFailed(shownType: string)               // "Failed to parse <TYPE> data ..."
    | ParsingError                               // "Parsing error: ...", something threw

  datatype Outcome = Loaded(rows: seq<Row>, source: Source) | Failed(failure: Failure)

  /** The primary parser's result, or None when decoding the CSV text threw. */
  function PrimaryRows(ds: Dataset): Option<seq<Row>> {
    if IsXlsx(ds) then Some(XlsxRows(ds.decoded, ds.sheet))
    else if ds.decoded.None? then None
    else Some(ParseCsv(ds.decoded.value))
  }

  /** The outcome of the parse-and-fallback chain on a dataset with content. */
  function Dispatch(ds: Dataset): Outcome {
    if !IsSupported(ds) then Failed(Unsupported(ds.datasetType))
    else match PrimaryRows(ds)
      case None => Failed(ParsingError)
      case Some(rows) =>
        if rows != [] then Loaded(rows, Primary)
        else if IsXlsx(ds) && ds.decoded.None? then Failed(ParsingError)
        else if IsXlsx(ds) && ParseCsv(ds.decoded.value) != [] then Loaded(ParseCsv(ds.decoded.value), CsvFallback)
        else if ds.decoded.Some? && ds.json.Some? && ds.json.value != [] then Loaded(ds.json.value, JsonArray)
        // `dataset_type.toUpperCase()` throws when the type is absent
        else if ds.datasetType.None? then Failed(ParsingError)
        else Failed(AllFailed(ToUpper(ds.datasetType.value)))
  }

  /** Loaded rows are never empty, and a failure is unsupported exactly when the dataset is. */
  lemma DispatchOutcome(ds: Dataset)
    ensures Dispatch(ds).Loaded? ==> Dispatch(ds).rows != []
    ensures Dispatch(ds) == Failed(Unsupported(ds.datasetType)) <==> !IsSupported(ds)
    ensures Dispatch(ds).Loaded? && Dispatch(ds).source == CsvFallback ==> IsXlsx(ds)
  {
  }

  /** A supported dataset fails only when every attempt came out empty. */
  lemma DispatchFailsOnlyWhenAllEmpty(ds: Dataset)
    requires IsSupported(ds) && Dispatch(ds).Failed?
    ensures PrimaryRows(ds).Some? ==> PrimaryRows(ds).value == []
    ensures ds.decoded.Some? ==> ParseCsv(ds.decoded.value) == []
    ensures ds.decoded.Some? && ds.json.Some? ==> ds.json.value == []
  {
  }

  /** A CSV dataset holding a header line and nothing else falls through to the JSON attempt. */
  lemma HeaderOnlyCsvFallsThrough(ds: Dataset)
    requires IsSupported(ds) && !IsXlsx(ds)
    requires ds.decoded.Some? && |CsvLines(ds.decoded.value)| == 1
    ensures Dispatch(ds).Failed? || Dispatch(ds).source == JsonArray
  {
    HeaderOnlyIsEmpty(ds.decoded.value);
  }

  /** A spreadsheet whose bytes do not decode is a parsing error, whatever the sheet holds. */
  lemma UndecodableXlsxIsParsingError(ds: Dataset)
    requires IsSupported(ds) && IsXlsx(ds) && ds.decoded.None?
    ensures Dispatch(ds) == Failed(ParsingError)
  {
  }

  /** The campaign details page: the primary parser alone, with `[]` for any throw or missing content. */
  function DetailsRows(ds: Option<Dataset>): seq<Row> {
    if ds.None? || ds.value.content == [] then []
    else PrimaryRows(ds.value).GetOr([])
  }

  /** Both pages agree whenever the details page finds rows of a supported dataset, and
      whenever the preview's primary parse succeeds. */
  lemma DetailsAgreesWithPreview(ds: Dataset)
    requires ds.content != []
    ensures IsSupported(ds) && DetailsRows(Some(ds)) != [] ==> Dispatch(ds) == Loaded(DetailsRows(Some(ds)), Primary)
    ensures Dispatch(ds).Loaded? && Dispatch(ds).source == Primary ==> DetailsRows(Some(ds)) == Dispatch(ds).rows
  {
  }

  /** The columns the campaign details page shows: the first row's keys, or none. */
  function DetailsColumns(rows: seq<Row>): (cols: seq<string>)
    ensures rows == [] ==> cols == []
    ensures rows != [] ==> cols == rows[0].keys
  {
    if |rows| > 0 then rows[0].keys else []
  }

  /** The dataset preview page's parse state. */
  class PreviewState {
    var parsedData: seq<Row>
    var parsedColumns: seq<string>
    var parseError: Option<Failure>

    /** The columns are the first row's keys, and there are none without rows. */
    predicate Valid()
      reads this
    {
      (parsedData == [] ==> parsedColumns == []) && (parsedData != [] ==> parsedColumns == parsedData[0].keys)
    }

    constructor()
      ensures parsedData == [] && parsedColumns == [] && parseError == None
      ensures Valid()
    {
      parsedData := [];
      parsedColumns := [];
      parseError := None;
    }

    method Fail(f: Failure)
      modifies this
      ensures parsedData == [] && parsedColumns == [] && parseError == Some(f)
      ensures Valid()
    {
      parseError := Some(f);
      parsedData := [];
      parsedColumns := [];
    }

    method Load(rows: seq<Row>)
      requires rows != []
      modifies this
      ensures parsedData == rows && parsedColumns == rows[0].keys && parseError == old(parseError)
      ensures Valid()
    {
      parsedData := rows;
      parsedColumns := rows[0].keys;
    }

    /** The effect run when a dataset response arrives; nothing happens without content. */
    method OnDatasetResponse(ds: Option<Dataset>)
      modifies this
      ensures ds.None? || ds.value.content == [] ==>
                parsedData == old(parsedData) && parsedColumns == old(parsedColumns) && parseError == old(parseError)
      ensures ds.Some? && ds.value.content != [] ==>
                match Dispatch(ds.value)
                case Loaded(rows, _) => parsedData == rows && parsedColumns == rows[0].keys && parseError == None
                case Failed(f) => parsedData == [] && parsedColumns == [] && parseError == Some(f)
      ensures old(Valid()) ==> Valid()
    {
      if ds.None? || |ds.value.content| == 0 {
        return;
      }
      var r := ds.value;
      parseError := None;
      if !IsSupported(r) {
        Fail(Unsupported(r.datasetType));
        return;
      }
      var parsed: seq<Row>;
      if IsXlsx(r) {
        parsed := ParseXlsx(r.decoded, r.sheet);
      } else {
        if r.decoded.None? {
          Fail(ParsingError);
          return;
        }
        parsed := ParseCsvContent(r.decoded.value);
      }
      if |parsed| > 0 {
        Load(parsed);
        return;
      }
      if IsXlsx(r) {
        if r.decoded.None? {
          Fail(ParsingError);
          return;
        }
        var fallback := ParseCsvContent(r.decoded.value);
        if |fallback| > 0 {
          Load(fallback);
          return;
        }
      }
      if r.decoded.Some? && r.json.Some? && |r.json.value| > 0 {
        Load(r.json.value);
        return;
      }
      if r.datasetType.None? {
        Fail(ParsingError);
        return;
      }
      Fail(AllFailed(ToUpper(r.datasetType.value)));
    }
  }

  /** The dataset preview's rows: the parsed rows, else the store's rows, else none. */
  function ActualData(parsedData: seq<Row>, excelData: Option<seq<Row>>): (r: seq<Row>)
    ensures parsedData != [] ==> r == parsedData
    ensures parsedData == [] ==> r == excelData.GetOr([])
  {
    if |parsedData| > 0 then parsedData else excelData.GetOr([])
  }

  /** The dataset preview's columns: the parsed columns, else the store's columns, else the first row's keys. */
  function ActualColumns(parsedColumns: seq<string>, excelColumns: seq<string>, actualData: seq<Row>): (r: seq<string>)
    ensures parsedColumns != [] ==> r == parsedColumns
    ensures parsedColumns == [] && excelColumns != [] ==> r == excelColumns
    ensures parsedColumns == [] && excelColumns == [] ==> r == DetailsColumns(actualData)
  {
    if |parsedColumns| > 0 then parsedColumns
    else if |excelColumns| > 0 then excelColumns
    else DetailsColumns(actualData)
  }

  /** Once a parse has produced rows, the preview shows them and names exactly their first row's keys,
      whatever the store holds. */
  lemma ParsedRowsWin(parsedData: seq<Row>, parsedColumns: seq<string>, excelData: Option<seq<Row>>, excelColumns: seq<string>)
    requires parsedData != [] && parsedColumns == parsedData[0].keys && parsedColumns != []
    ensures ActualData(parsedData, excelData) == parsedData
    ensures ActualColumns(parsedColumns, excelColumns, ActualData(parsedData, excelData)) == ActualData(parsedData, excelData)[0].keys
  {
  }

  /** Rows shown in the dataset preview table. */
  function PreviewRows(rows: seq<Row>, showAll: bool): (r: seq<Row>)
    ensures !showAll ==> |r| == (if |rows| < 6 then |rows| else 6) && r == rows[..|r|]
    ensures showAll ==> r == rows
  {
    Shown(rows, showAll, 6)
  }
}
