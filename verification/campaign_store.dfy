/**
 * The campaign store: the state of the campaign being created, shared by
 * the upload, preview and enrichment steps.  Every action replaces some
 * fields and leaves the rest; the persistence layer then saves a fixed
 * subset of the fields.  Reading a spreadsheet file into rows is the one
 * action with logic of its own.
 *
 * Reading the file and the workbook is not modelled: the action receives
 * what the spreadsheet library makes of the file's first sheet.
 */
module CampaignStore {
  import opened Wrappers
  import opened Lists
  import opened Tabular

  datatype CampaignInfo = CampaignInfo(name: string, description: string)

  /** The browser's `File`, as far as the application looks at it. */
  datatype UploadedFile = UploadedFile(name: string, mimeType: string, size: nat)

  /** Every field of the store, as one value. */
  datatype State = State(
    campaignInfo: CampaignInfo,
    fileName: Option<string>,
    uploadedData: Option<seq<Row>>,
    columnsToDelete: seq<string>,
    columnsToDeleteText: string,
    currentStep: int,
    createdCampaignId: Option<string>,
    createdDatasetId: Option<string>,
    uploadedFile: Option<UploadedFile>,
    excelData: Option<seq<Row>>,
    excelColumns: seq<string>,
    isLoadingExcel: bool)

  /** The store's starting state, which both reset actions restore. */
  const Initial := State(CampaignInfo("", ""), None, None, [], "", 0, None, None, None, None, [], false)

  /** The fields written to storage. */
  datatype Persisted = Persisted(
    campaignInfo: CampaignInfo,
    fileName: Option<string>,
    currentStep: int,
    createdCampaignId: Option<string>,
    createdDatasetId: Option<string>,
    columnsToDeleteText: string,
    excelColumns: seq<string>)

  function Partialize(s: State): Persisted {
    Persisted(s.campaignInfo, s.fileName, s.currentStep, s.createdCampaignId, s.createdDatasetId,
              s.columnsToDeleteText, s.excelColumns)
  }

  /** Storage holds exactly seven fields: two states are saved alike exactly when they agree on those,
      so the rows, the file, the delete list and the loading flag are never saved. */
  lemma PartializeExact(a: State, b: State)
    ensures Partialize(a) == Partialize(b) <==>
              && a.campaignInfo == b.campaignInfo && a.fileName == b.fileName && a.currentStep == b.currentStep
              && a.createdCampaignId == b.createdCampaignId && a.createdDatasetId == b.createdDatasetId
              && a.columnsToDeleteText == b.columnsToDeleteText && a.excelColumns == b.excelColumns
    ensures a.(uploadedData := b.uploadedData, columnsToDelete := b.columnsToDelete, uploadedFile := b.uploadedFile,
               excelData := b.excelData, isLoadingExcel := b.isLoadingExcel) == b
            <==> Partialize(a) == Partialize(b)
  {
  }

  /** A cell of the sheet as the spreadsheet library yields it. */
  datatype Cell =
    | Missing                            // `undefined`: a blank cell (a hole of the row array) or past a short row
    | Text(text: string)
    | Number(display: string, isZero: bool)
    | Boolean(value: bool)

  /** `String(cell)`: how a header cell becomes a key.  A blank header cell is a hole of the header
      array, which `forEach` never visits, so it never becomes a key. */
  function KeyText(c: Cell): string
    requires !c.Missing?
  {
    match c
    case Text(t) => t
    case Number(d, _) => d
    case Boolean(b) => if b then "true" else "false"
  }

  /** `cell || ''`: a falsy cell (missing, empty, zero, false) becomes the empty string. */
  function CellValue(c: Cell): (r: string)
    ensures c.Missing? || c == Text("") || (c.Number? && c.isZero) || c == Boolean(false) ==> r == ""
    ensures c.Text? ==> r == c.text
    ensures c.Number? && !c.isZero ==> r == c.display
  {
    match c
    case Missing => ""
    case Text(t) => t
    case Number(d, z) => if z then "" else d
    case Boolean(b) => if b then "true" else ""
  }

  /** `row[j]`, which is `undefined` past the end of a short row. */
  function CellAt(row: seq<Cell>, j: nat): Cell {
    if j < |row| then row[j] else Missing
  }

  /** The positions of the header row that `forEach` visits: those holding a cell, in order. */
  function HeaderPositions(header: seq<Cell>): seq<nat> {
    if header == [] then []
    else
      var n := |header| - 1;
      HeaderPositions(header[..n]) + (if header[n].Missing? then [] else [n])
  }

  /** `forEach` visits every position that holds a cell, only those, and in increasing order. */
  lemma {:induction false} HeaderPositionsSpec(header: seq<Cell>)
    ensures forall m :: 0 <= m < |HeaderPositions(header)| ==>
              HeaderPositions(header)[m] < |header| && !header[HeaderPositions(header)[m]].Missing?
    ensures forall j :: 0 <= j < |header| && !header[j].Missing? ==> j in HeaderPositions(header)
    ensures forall m, n :: 0 <= m < n < |HeaderPositions(header)| ==> HeaderPositions(header)[m] < HeaderPositions(header)[n]
  {
    if header != [] {
      var n := |header| - 1;
      var p := header[..n];
      HeaderPositionsSpec(p);
      assert forall j :: 0 <= j < n ==> header[j] == p[j];
    }
  }

  /** The header names of a sheet: the cells of its first row, holes skipped. */
  function SheetHeaders(grid: seq<seq<Cell>>): seq<string>
    requires grid != []
  {
    var ps := HeaderPositions(grid[0]);
    HeaderPositionsSpec(grid[0]);
    seq(|ps|, m requires 0 <= m < |ps| => KeyText(grid[0][ps[m]]))
  }

  /** The values a data row gives the visited header positions, `rowArray[index] || ''`. */
  function SheetValues(header: seq<Cell>, row: seq<Cell>): seq<string> {
    var ps := HeaderPositions(header);
    seq(|ps|, m requires 0 <= m < |ps| => CellValue(CellAt(row, ps[m])))
  }

  /** The rows of a sheet: every row after the first, zipped against the header cells of the first. */
  function SheetRows(grid: seq<seq<Cell>>): (rows: seq<Row>)
    requires grid != []
    ensures |rows| == |grid| - 1
    ensures forall i :: 0 <= i < |rows| ==> rows[i] == MakeRow(SheetHeaders(grid), SheetValues(grid[0], grid[i + 1]))
  {
    seq(|grid| - 1, i requires 0 <= i < |grid| - 1 => MakeRow(SheetHeaders(grid), SheetValues(grid[0], grid[i + 1])))
  }

  /** The names a header row gives, by position: exactly the cells that are not holes. */
  lemma SheetHeadersNamed(grid: seq<seq<Cell>>, h: string)
    requires grid != []
    ensures h in SheetHeaders(grid) <==> exists j :: 0 <= j < |grid[0]| && !grid[0][j].Missing? && KeyText(grid[0][j]) == h
  {
    var ps := HeaderPositions(grid[0]);
    var hs := SheetHeaders(grid);
    HeaderPositionsSpec(grid[0]);
    if h in hs {
      var m :| 0 <= m < |hs| && hs[m] == h;
      assert KeyText(grid[0][ps[m]]) == h;
    }
    if exists j :: 0 <= j < |grid[0]| && !grid[0][j].Missing? && KeyText(grid[0][j]) == h {
      var j :| 0 <= j < |grid[0]| && !grid[0][j].Missing? && KeyText(grid[0][j]) == h;
      var m :| 0 <= m < |ps| && ps[m] == j;
      assert hs[m] == h;
    }
  }

  /** Each row of a sheet has as keys exactly the names of the header cells, blank header cells
      giving none, and a header's value is the cell under it (the last such cell for a repeated name),
      or the empty string for a falsy or absent cell. */
  lemma SheetRowShape(grid: seq<seq<Cell>>, i: nat, k: nat)
    requires grid != [] && i < |grid| - 1 && k < |grid[0]| && !grid[0][k].Missing?
    requires forall j :: k < j < |grid[0]| && !grid[0][j].Missing? ==> KeyText(grid[0][j]) != KeyText(grid[0][k])
    ensures forall h :: h in SheetRows(grid)[i].cells <==>
              exists j :: 0 <= j < |grid[0]| && !grid[0][j].Missing? && KeyText(grid[0][j]) == h
    ensures SheetRows(grid)[i].keys == Dedup(SheetHeaders(grid))
    ensures SheetRows(grid)[i].cells[KeyText(grid[0][k])] ==
              if k < |grid[i + 1]| then CellValue(grid[i + 1][k]) else ""
  {
    var hs := SheetHeaders(grid);
    var vs := SheetValues(grid[0], grid[i + 1]);
    var ps := HeaderPositions(grid[0]);
    HeaderPositionsSpec(grid[0]);
    ZipCellsKeys(hs, vs);
    forall h | true
      ensures h in hs <==> exists j :: 0 <= j < |grid[0]| && !grid[0][j].Missing? && KeyText(grid[0][j]) == h
    {
      SheetHeadersNamed(grid, h);
    }
    var m :| 0 <= m < |ps| && ps[m] == k;
    assert forall n :: m < n < |hs| ==> hs[n] != hs[m] by {
      forall n | m < n < |hs|
        ensures hs[n] != hs[m]
      {
        assert k < ps[n];
      }
    }
    ZipCellsLastWins(hs, vs, m);
  }

  /** What the spreadsheet library makes of the uploaded file. */
  datatype SheetOutcome = ReadError | FirstSheet(grid: seq<seq<Cell>>)

  /** The state after reading a file: a read error only lowers the loading flag, an empty sheet leaves
      it raised, and a sheet with a header row fills both row fields and the columns. */
  function Parsed(s: State, outcome: SheetOutcome): State {
    if outcome.ReadError? then s.(isLoadingExcel := false)
    else if outcome.grid == [] then s.(isLoadingExcel := true)
    else s.(excelData := Some(SheetRows(outcome.grid)), excelColumns := SheetHeaders(outcome.grid),
            uploadedData := Some(SheetRows(outcome.grid)), isLoadingExcel := false)
  }

  /** The persisted store. */
  class Store {
    var campaignInfo: CampaignInfo
    var fileName: Option<string>
    var uploadedData: Option<seq<Row>>
    var columnsToDelete: seq<string>
    var columnsToDeleteText: string
    var currentStep: int
    var createdCampaignId: Option<string>
    var createdDatasetId: Option<string>
    var uploadedFile: Option<UploadedFile>
    var excelData: Option<seq<Row>>
    var excelColumns: seq<string>
    var isLoadingExcel: bool
    /** What storage holds for the store; every action saves the persisted fields. */
    var stored: Option<Persisted>

    function Snapshot(): State
      reads this
    {
      State(campaignInfo, fileName, uploadedData, columnsToDelete, columnsToDeleteText, currentStep,
            createdCampaignId, createdDatasetId, uploadedFile, excelData, excelColumns, isLoadingExcel)
    }

    /** Storage mirrors the persisted fields of the state. */
    predicate Saved()
      reads this
    {
      stored == Some(Partialize(Snapshot()))
    }

    constructor()
      ensures Snapshot() == Initial && stored == None
    {
      campaignInfo := CampaignInfo("", "");
      fileName := None;
      uploadedData := None;
      columnsToDelete := [];
      columnsToDeleteText := "";
      currentStep := 0;
      createdCampaignId := None;
      createdDatasetId := None;
      uploadedFile := None;
      excelData := None;
      excelColumns := [];
      isLoadingExcel := false;
      stored := None;
    }

    /** Puts every field of `s` in place, leaving storage as it is. */
    method Restore(s: State)
      modifies this
      ensures Snapshot() == s && stored == old(stored)
    {
      RestoreUpload(s);
      RestoreProgress(s);
      RestoreSheet(s);
    }

    method RestoreUpload(s: State)
      modifies this
      ensures Snapshot() == old(Snapshot()).(campaignInfo := s.campaignInfo, fileName := s.fileName,
                                             uploadedData := s.uploadedData, columnsToDelete := s.columnsToDelete)
      ensures stored == old(stored)
    {
      campaignInfo, fileName, uploadedData, columnsToDelete := s.campaignInfo, s.fileName, s.uploadedData, s.columnsToDelete;
    }

    method RestoreProgress(s: State)
      modifies this
      ensures Snapshot() == old(Snapshot()).(columnsToDeleteText := s.columnsToDeleteText, currentStep := s.currentStep,
                                             createdCampaignId := s.createdCampaignId, createdDatasetId := s.createdDatasetId)
      ensures stored == old(stored)
    {
      columnsToDeleteText, currentStep, createdCampaignId, createdDatasetId :=
        s.columnsToDeleteText, s.currentStep, s.createdCampaignId, s.createdDatasetId;
    }

    method RestoreSheet(s: State)
      modifies this
      ensures Snapshot() == old(Snapshot()).(uploadedFile := s.uploadedFile, excelData := s.excelData,
                                             excelColumns := s.excelColumns, isLoadingExcel := s.isLoadingExcel)
      ensures stored == old(stored)
    {
      uploadedFile, excelData, excelColumns, isLoadingExcel := s.uploadedFile, s.excelData, s.excelColumns, s.isLoadingExcel;
    }

    method Save()
      modifies this
      ensures Snapshot() == old(Snapshot()) && Saved()
    {
      stored := Some(Partialize(Snapshot()));
    }

    method SetCampaignInfo(info: CampaignInfo)
      modifies this
      ensures Snapshot() == old(Snapshot()).(campaignInfo := info) && Saved()
    {
      campaignInfo := info;
      Save();
    }

    method SetFileName(name: string)
      modifies this
      ensures Snapshot() == old(Snapshot()).(fileName := Some(name)) && Saved()
    {
      fileName := Some(name);
      Save();
    }

    method SetUploadedData(data: seq<Row>)
      modifies this
      ensures Snapshot() == old(Snapshot()).(uploadedData := Some(data)) && Saved()
    {
      uploadedData := Some(data);
      Save();
    }

    method SetColumnsToDelete(columns: seq<string>)
      modifies this
      ensures Snapshot() == old(Snapshot()).(columnsToDelete := columns) && Saved()
    {
      columnsToDelete := columns;
      Save();
    }

    method SetColumnsToDeleteText(text: string)
      modifies this
      ensures Snapshot() == old(Snapshot()).(columnsToDeleteText := text) && Saved()
    {
      columnsToDeleteText := text;
      Save();
    }

    method SetCurrentStep(step: int)
      modifies this
      ensures Snapshot() == old(Snapshot()).(currentStep := step) && Saved()
    {
      currentStep := step;
      Save();
    }

    /** Both ids are set together. */
    method SetCreatedCampaign(campaignId: string, datasetId: string)
      modifies this
      ensures Snapshot() == old(Snapshot()).(createdCampaignId := Some(campaignId), createdDatasetId := Some(datasetId))
      ensures Saved()
    {
      createdCampaignId := Some(campaignId);
      createdDatasetId := Some(datasetId);
      Save();
    }

    method SetUploadedFile(file: Option<UploadedFile>)
      modifies this
      ensures Snapshot() == old(Snapshot()).(uploadedFile := file) && Saved()
    {
      uploadedFile := file;
      Save();
    }

    /** The rows go to both row fields, the columns to the column field. */
    method SetExcelData(data: seq<Row>, columns: seq<string>)
      modifies this
      ensures Snapshot() == old(Snapshot()).(excelData := Some(data), excelColumns := columns, uploadedData := Some(data))
      ensures Saved()
    {
      excelData := Some(data);
      excelColumns := columns;
      uploadedData := Some(data);
      Save();
    }

    method ResetCampaign()
      modifies this
      ensures Snapshot() == Initial && Saved()
    {
      Restore(Initial);
      Save();
    }

    /** Like a reset, and storage is emptied afterwards. */
    method StartNewCampaign()
      modifies this
      ensures Snapshot() == Initial && stored == None
    {
      Restore(Initial);
      Save();
      stored := None;
    }

    /** Reading an uploaded file into rows.  The loading flag is raised first; a read error lowers it
        and is passed on (`failed`); an empty sheet changes nothing else and leaves the flag raised;
        otherwise both row fields get the sheet's rows and the columns its first row. */
    method ParseExcelFile(outcome: SheetOutcome) returns (failed: bool)
      modifies this
      ensures failed <==> outcome.ReadError?
      ensures outcome.ReadError? ==> Snapshot() == old(Snapshot()).(isLoadingExcel := false)
      ensures outcome.FirstSheet? && outcome.grid == [] ==> Snapshot() == old(Snapshot()).(isLoadingExcel := true)
      ensures outcome.FirstSheet? && outcome.grid != [] ==>
                Snapshot() == old(Snapshot()).(excelData := Some(SheetRows(outcome.grid)),
                                               excelColumns := SheetHeaders(outcome.grid),
                                               uploadedData := Some(SheetRows(outcome.grid)),
                                               isLoadingExcel := false)
      ensures Snapshot() == Parsed(old(Snapshot()), outcome)
      ensures Saved()
    {
      isLoadingExcel := true;
      Save();
      if outcome.ReadError? {
        isLoadingExcel := false;
        Save();
        return true;
      }
      var grid := outcome.grid;
      if |grid| > 0 {
        var rows := SheetRows(grid);
        excelData := Some(rows);
        excelColumns := SheetHeaders(grid);
        uploadedData := Some(rows);
        isLoadingExcel := false;
        Save();
      }
      return false;
    }
  }
}
