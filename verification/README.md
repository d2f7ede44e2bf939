# SpreadPro-UI, modelled in Dafny

SpreadPro-UI is the browser front end of a data-enrichment service. A user
uploads a CSV or XLSX file to start a campaign. The app previews the dataset
and lets the user mark columns to delete. The user then picks one
enrichment (data clean, job-title enrichment, domain enrichment, e-mail
discovery, product and service discovery, use-case generation or e-mail
generation), configures it and runs it. Finally the user downloads the
processed data.

This project models the client-side logic of that flow, module by module:

- `Tabular` holds the dataset parser: the CSV line scanner with delimiter sniffing and the 999-row cap, and the zip of a spreadsheet grid against its first row. The preview, the data-preview step and the campaign details page carry identical copies of it.
- `CsvWriter` and `CsvRoundTrip` hold the CSV serializer of the dataset preview, with a proved round trip through the parser.
- `DatasetPreview` holds the dispatch-and-fallback chain that turns the server's dataset into rows, and the choice between parsed and stored data.
- `DataPreview` holds the column reconciler, the comma-separated delete list, the chip toggle and the "next" decision.
- `CampaignStore` holds the persisted campaign store as a class whose actions update its fields, with `parseExcelFile`'s grid zip.
- `CampaignsList` holds search, pagination, the page-number window and its pager state.
- `CampaignDetails` holds the details page's proceed guard and generated file name.
- `RawDownload` holds the shared MIME and extension rule for downloading stored bytes.
- `EnrichmentKinds`, `Enrichments`, `EnrichmentOptions` and `EnrichmentModal` hold the enrichment page:
  - titles and back-end types;
  - dispatch priority, submit label and gating;
  - the clean-data fixes;
  - error-message extraction and titles;
  - single selection;
  - the configuration modal.
- `CleanConfig`, `DataClean` and `ConfigurationPanel` hold the clean-data configuration and the editing of its word lists.
- `NewCampaign` holds upload validation and campaign create and edit.
- `ResultsDisplay` holds the results download. It quotes every value but does not escape quotes.
- `CompletedEnrichments` holds the cards of completed enrichments and their download.
- `Header` holds the user's display name and initials.
- `Navigation` holds the step bar.
- `Wrappers`, `JsText` and `Lists` are the support modules. They provide `Option`, and JavaScript's string operations: `trim`, `split`, `join`, `includes`, and ASCII case mapping. They also provide filter, map, de-duplication and removal over sequences.

A JavaScript row object is a `Tabular.Row`. It holds the column names in key order and a map from name to value. Keys follow the header's first occurrences. A repeated header keeps the value at its last position, as repeated assignment to one property does.

Calls into code that is not modelled become parameters:
- `atob` is modelled as an `Option<string>` holding the decoded text, or nothing when it throws.
- The spreadsheet library's reading is modelled as a `Sheet` or `SheetOutcome` value.
- `JSON.parse` is modelled as an optional array of rows.
- Server replies are modelled as reply values.
- The current time is modelled as an ISO timestamp string.
- Development mode is modelled as a boolean.

## Model

| member | source | states |
|---|---|---|
| Tabular.MakeRowShape | src/components/enrichments/ExcelPreview.tsx:174-177 | a zipped row has no repeated key, its keys are exactly the header's names and the map's domain, and with distinct headers the keys are the header itself |
| Tabular.ZipCellsLastWins | src/components/enrichments/ExcelPreview.tsx:175-177 | a header name's value is the value at its last position in the header, or empty when the line is too short |
| Tabular.ZipCellsAt | src/components/enrichments/ExcelPreview.tsx:175-177 | with distinct headers, column k's value is the line's k-th value or empty |
| Tabular.ZipRow | src/components/enrichments/ExcelPreview.tsx:174-178 | the loop over the header builds exactly the zipped row |
| Tabular.SplitLines | src/components/enrichments/ExcelPreview.tsx:104 | splitting at line feeds gives one more piece than there are line feeds |
| Tabular.TrimBreaks | src/components/enrichments/ExcelPreview.tsx:104 | dropping the carriage return before each line feed keeps the number of lines |
| Tabular.DelimiterSpec | src/components/enrichments/ExcelPreview.tsx:113-119 | the delimiter is `;` iff the first line has more semicolons than commas; otherwise it is a tab iff it has more tabs than commas; otherwise a comma (all three directions) |
| Tabular.ScanCount | src/components/enrichments/ExcelPreview.tsx:133-154 | the scanner yields one field per delimiter outside quotes plus one |
| Tabular.ScanTrimmed | src/components/enrichments/ExcelPreview.tsx:145-154 | every field the scanner pushes is trimmed |
| Tabular.ParseLineCount | src/components/enrichments/ExcelPreview.tsx:125-157 | an empty line gives no fields; any other line gives unquoted delimiters + 1 fields |
| Tabular.ParseLineFields | src/components/enrichments/ExcelPreview.tsx:125-157 | a line's fields are the trimmed scanned fields with one leading and one trailing quote stripped |
| Tabular.StripQuotes | src/components/enrichments/ExcelPreview.tsx:156 | stripping the quotes never lengthens a field |
| Tabular.ParseCsvLine | src/components/enrichments/ExcelPreview.tsx:125-157 | the `while` loop over the line, with its `current`/`inQuotes` state, returns the specified fields and their count |
| Tabular.ParseCsvContent | src/components/enrichments/ExcelPreview.tsx:97-189 | the imperative parse equals the specification `ParseCsv` |
| Tabular.ParseDataLines | src/components/enrichments/ExcelPreview.tsx:169-179 | the row loop pushes one row per data line, in order |
| Tabular.DataRowsCount | src/components/enrichments/ExcelPreview.tsx:169-179 | non-empty data lines give exactly one row each, zipped against the header |
| Tabular.ParseCsvShape | src/components/enrichments/ExcelPreview.tsx:104-179 | with n non-blank lines: none gives no rows; otherwise min(n,1000)-1 rows, row i from line i+1 keyed by the header |
| Tabular.ParseCsvAtMost999 | src/components/enrichments/ExcelPreview.tsx:170 | a parse never yields more than 999 rows |
| Tabular.HeaderOnlyIsEmpty | src/components/enrichments/ExcelPreview.tsx:169-182 | a text with only a header line parses to no rows |
| Tabular.GridRows | src/components/enrichments/ExcelPreview.tsx:73-82 | one row per grid row after the first, each zipped against the first |
| Tabular.ParseXlsx | src/components/enrichments/ExcelPreview.tsx:24-92 | failed decode, failed read, missing sheet or empty grid give `[]`; otherwise exactly grid rows − 1 rows, with no cap |
| CsvWriter.DoubleQuotes | src/components/enrichments/ExcelPreview.tsx:246 | doubling lengthens a value by its number of quotes |
| CsvWriter.RowValues | src/components/enrichments/ExcelPreview.tsx:242-243 | one value per header, a missing or empty cell giving `''` |
| CsvWriter.RowLines | src/components/enrichments/ExcelPreview.tsx:241-249 | one line per row, in order |
| CsvWriter.TerminatedCount | src/components/enrichments/ExcelPreview.tsx:240-248 | with values free of line feeds, the text holds exactly one line feed per line, so every line, the last included, ends with one |
| CsvWriter.CsvContent | src/components/enrichments/ExcelPreview.tsx:240-249 | the `forEach` that appends to `content` builds the header line and one quoted line per row |
| CsvWriter.StripExtensionSpec | src/components/enrichments/ExcelPreview.tsx:256-258 | only a final dot plus an extension without `.` or `/` is removed; a name without a dot is kept |
| CsvWriter.DownloadCurrentDataset | src/components/enrichments/ExcelPreview.tsx:194-278 | no rows: nothing; a spreadsheet name or type: `<base>.xlsx`; otherwise `<base>.csv` with the serialized text of the first row's keys |
| CsvWriter.DownloadName | src/components/enrichments/ExcelPreview.tsx:620-623 | the name passed is never empty: the dataset name, else the file name, else `dataset` |
| CsvRoundTrip.RoundTrip | src/components/enrichments/ExcelPreview.tsx:97-189 | parsing the serialized text gives back the rows, for distinct safe headers, safe values and fewer than 1000 rows |
| CsvRoundTrip.DownloadReadsBack | src/components/enrichments/ExcelPreview.tsx:240-249 | the same for the text the download writes from the first row's keys |
| CsvRoundTrip.ScanQuoted | src/components/enrichments/ExcelPreview.tsx:136-143 | a quoted value whose quotes are doubled is read back as the value |
| CsvRoundTrip.SafeReadable | src/components/enrichments/ExcelPreview.tsx:145-156 | a safe value survives trimming and quote stripping unchanged |
| DatasetPreview.DispatchOutcome | src/components/enrichments/ExcelPreview.tsx:324-414 | loaded rows are never empty; "unsupported" occurs iff neither type nor name says csv or xlsx; the CSV retry is used only for spreadsheets |
| DatasetPreview.DispatchFailsOnlyWhenAllEmpty | src/components/enrichments/ExcelPreview.tsx:355-401 | a parse failure means the primary parse, the CSV retry and the JSON array were all empty |
| DatasetPreview.HeaderOnlyCsvFallsThrough | src/components/enrichments/ExcelPreview.tsx:343-401 | a header-only CSV is not loaded by the primary parse: it is read as JSON or fails |
| DatasetPreview.UndecodableXlsxIsParsingError | src/components/enrichments/ExcelPreview.tsx:367-407 | a spreadsheet whose content does not decode ends in the parsing error |
| DatasetPreview.DetailsAgreesWithPreview | src/components/CampaignDetails.tsx:288-303 | the details page's no-fallback parse gives the preview's primary rows whenever either succeeds |
| DatasetPreview.DetailsColumns | src/components/CampaignDetails.tsx:305 | the columns are the first row's keys, or none without rows |
| DatasetPreview.PreviewState.OnDatasetResponse | src/components/enrichments/ExcelPreview.tsx:313-416 | without content nothing changes; otherwise the state holds the dispatch's rows and their keys, or no rows and the failure |
| DatasetPreview.PreviewState.Fail | src/components/enrichments/ExcelPreview.tsx:399-413 | a failure clears rows and columns and records the error |
| DatasetPreview.PreviewState.Load | src/components/enrichments/ExcelPreview.tsx:355-357 | loading sets the rows and the first row's keys |
| DatasetPreview.ActualData | src/components/enrichments/ExcelPreview.tsx:419 | parsed rows win over the stored spreadsheet rows |
| DatasetPreview.ActualColumns | src/components/enrichments/ExcelPreview.tsx:420 | parsed columns, else stored columns, else the first row's keys |
| DatasetPreview.ParsedRowsWin | src/components/enrichments/ExcelPreview.tsx:419-420 | once rows are parsed, the shown data and columns are those rows and their keys |
| DatasetPreview.PreviewRows | src/components/enrichments/ExcelPreview.tsx:422 | exactly the first min(n, 6) rows unless all are shown |
| DataPreview.CleanColumnsSpec | src/components/DataPreview.tsx:329-335 | cleaned columns are distinct, trimmed and non-empty; they are exactly the trims of the inputs, in first-occurrence order |
| DataPreview.CleanColumnsIdempotent | src/components/DataPreview.tsx:329-335 | cleaning twice is cleaning once |
| DataPreview.RawColumns | src/components/DataPreview.tsx:337-346 | parsed columns, else the server list even when empty, else stored columns, else the first row's keys |
| DataPreview.EmptyServerListWins | src/components/DataPreview.tsx:340-341 | an empty server list hides the stored columns |
| DataPreview.ActualRows | src/components/DataPreview.tsx:326 | parsed rows, else stored rows, else the rows handed in |
| DataPreview.DisplayRows | src/components/DataPreview.tsx:350 | the first ten rows unless all are shown |
| DataPreview.DeleteListListable | src/components/DataPreview.tsx:469-472 | every entry of the delete list is non-empty, trimmed and free of commas |
| DataPreview.DeleteListRoundTrip | src/components/DataPreview.tsx:469-488 | reading back the list joined with `", "` gives the same list |
| DataPreview.ClickToggles | src/components/DataPreview.tsx:475-490 | a click removes every occurrence of a listed column, or appends an unlisted one, keeping the rest in order |
| DataPreview.ClickTwice | src/components/DataPreview.tsx:475-490 | clicking a column twice leaves the list's members unchanged, and the list itself when the column was unlisted |
| DataPreview.ColumnClick | src/components/DataPreview.tsx:475-490 | the click rewrites only the stored delete text |
| DataPreview.DisplayColumnsSpec | src/components/DataPreview.tsx:493 | the shown columns are an order-preserving subsequence of the actual ones, disjoint from the delete list; their count is the actual count minus the deleted ones |
| DataPreview.HandleNext | src/components/DataPreview.tsx:356-398 | the removal request is made iff the list is non-empty and both ids are set; on its failure nothing changes; otherwise the text is cleared and the step gets the list and the old text |
| RawDownload.KindPriority | src/components/CampaignDetails.tsx:209-224 | spreadsheet by type or name wins over CSV, CSV over an old Excel name; only the generic kind adds no extension |
| RawDownload.WithExtension | src/components/CampaignDetails.tsx:235-238 | the extension is appended only to a name without a dot |
| RawDownload.NamedFileHasDot | src/components/CampaignDetails.tsx:235-238 | a known kind always yields a name with a dot |
| RawDownload.NameOr | src/components/CampaignDetails.tsx:235 | the dataset's name when set, else the fallback |
| RawDownload.BytesOf | src/components/CampaignDetails.tsx:202-206 | the byte loop keeps each character code's low eight bits, one byte per character |
| RawDownload.DownloadRaw | src/components/CampaignDetails.tsx:195-253 | nothing without content or decoding; otherwise the decoded bytes under the chosen name and MIME type; the data-preview download (src/components/DataPreview.tsx:401-466) is the same rule, with the uploaded file's name as the fallback |
| CampaignDetails.FirstDatasetId | src/components/CampaignDetails.tsx:176 | the first dataset id exactly when it exists and is non-empty |
| CampaignDetails.DetailsDisplayRows | src/components/CampaignDetails.tsx:306 | the first ten rows unless all are shown |
| CampaignDetails.UnderscoredSpec | src/components/CampaignDetails.tsx:280 | replacing white-space runs leaves no white space and keeps a text without any |
| CampaignDetails.RunIsOneUnderscore | src/components/CampaignDetails.tsx:280 | a run of white space of any length, followed by a non-space or the end, becomes exactly one `_` and the rest is replaced in turn |
| CampaignDetails.KeepsOtherChar | src/components/CampaignDetails.tsx:280 | a character that is not white space is kept as it is, and the replacement continues after it; with `RunIsOneUnderscore` this fixes the result on every input |
| CampaignDetails.GeneratedFileName | src/components/CampaignDetails.tsx:280 | the name ends with `_data.` and the dataset type, or `csv` |
| CampaignDetails.GeneratedFileNameStem | src/components/CampaignDetails.tsx:280 | the name starts with the lower-cased campaign name with white space replaced: no white space is left, a leading run of any length becomes one `_`, and a name without white space is kept lower-cased |
| CampaignDetails.ProceedToEnrichment | src/components/CampaignDetails.tsx:255-285 | proceeding happens iff the campaign, its first dataset id and parsed rows exist; it then sets ids, info, rows, columns and file name |
| CampaignStore.PartializeExact | src/stores/campaignStore.ts:184-192 | two states persist alike iff they agree on the seven persisted fields |
| CampaignStore.CellValue | src/stores/campaignStore.ts:118 | falsy cells (missing, `''`, `0`, `false`) become `''`; other cells keep their text |
| CampaignStore.HeaderPositionsSpec | src/stores/campaignStore.ts:117 | `headers.forEach` visits every header position holding a cell, skips the holes left by blank cells, and goes in increasing order |
| CampaignStore.SheetHeadersNamed | src/stores/campaignStore.ts:117-118 | a name is a header exactly when some non-blank cell of the first row gives it; a blank cell gives none |
| CampaignStore.SheetRows | src/stores/campaignStore.ts:109-121 | one row per sheet row after the first, zipped against the non-blank cells of the first |
| CampaignStore.SheetRowShape | src/stores/campaignStore.ts:114-121 | every row holds exactly the names of the non-blank header cells (a blank header cell adds no key), each valued from its last header position, `''` for a falsy or absent cell |
| CampaignStore.Store.constructor | src/stores/campaignStore.ts:46-62 | the store starts in the initial state |
| CampaignStore.Store.SetCampaignInfo | src/stores/campaignStore.ts:65 | sets the campaign info only |
| CampaignStore.Store.SetFileName | src/stores/campaignStore.ts:67 | sets the file name only |
| CampaignStore.Store.SetUploadedData | src/stores/campaignStore.ts:69 | sets the uploaded data only |
| CampaignStore.Store.SetColumnsToDelete | src/stores/campaignStore.ts:71 | sets the columns to delete only |
| CampaignStore.Store.SetColumnsToDeleteText | src/stores/campaignStore.ts:73 | sets the delete text only |
| CampaignStore.Store.SetCurrentStep | src/stores/campaignStore.ts:75 | sets the step only |
| CampaignStore.Store.SetCreatedCampaign | src/stores/campaignStore.ts:77-80 | sets both ids together, nothing else |
| CampaignStore.Store.SetUploadedFile | src/stores/campaignStore.ts:82 | sets the uploaded file only |
| CampaignStore.Store.SetExcelData | src/stores/campaignStore.ts:137-141 | sets the spreadsheet data, the uploaded data and the columns, nothing else |
| CampaignStore.Store.ResetCampaign | src/stores/campaignStore.ts:143-156 | every field is back to its initial value |
| CampaignStore.Store.StartNewCampaign | src/stores/campaignStore.ts:159-179 | every field is back to its initial value and storage is cleared |
| CampaignStore.Store.ParseExcelFile | src/stores/campaignStore.ts:85-135 | an error clears the loading flag and fails; an empty sheet leaves loading on and data untouched; otherwise data, uploaded data and columns (the non-blank header names) are the sheet's and loading is off |
| CampaignsList.MatchingSpec | src/components/CampaignsList.tsx:54-56 | the matches are the campaigns whose lower-cased name contains the needle, in order |
| CampaignsList.SearchSpec | src/components/CampaignsList.tsx:50-57 | a blank query keeps every campaign; otherwise the lower-cased, untrimmed query is matched |
| CampaignsList.SearchIgnoresCase | src/components/CampaignsList.tsx:55 | searching for the upper-cased query finds the same campaigns |
| CampaignsList.TotalPages | src/components/CampaignsList.tsx:61 | the page count is the ceiling of n/10 |
| CampaignsList.PageSliceSpec | src/components/CampaignsList.tsx:64-68 | page p holds the items from (p-1)·10, at most ten |
| CampaignsList.PagesCoverItems | src/components/CampaignsList.tsx:61-68 | item i is on page i/10+1, which exists |
| CampaignsList.ShowingRangeSpec | src/components/CampaignsList.tsx:432 | "showing a to b" names exactly the page's items |
| CampaignsList.Range | src/components/CampaignsList.tsx:99-100 | the run of page numbers from a to b |
| CampaignsList.GetPageNumbers | src/components/CampaignsList.tsx:93-131 | the loops that push page numbers build the specified window |
| CampaignsList.FewPagesAllShown | src/components/CampaignsList.tsx:97-101 | up to five pages are all listed, none for no pages |
| CampaignsList.ManyPagesShape | src/components/CampaignsList.tsx:102-128 | beyond five pages: 6 or 7 entries, first page first, last page last, ellipses only over hidden pages |
| CampaignsList.PageNumbersIncrease | src/components/CampaignsList.tsx:93-131 | the listed numbers are existing pages in strictly increasing order |
| CampaignsList.CurrentPageShown | src/components/CampaignsList.tsx:104-127 | the current page is always listed |
| CampaignsList.Pager.SetQuery | src/components/CampaignsList.tsx:71-85 | a new query or result count returns to page one |
| CampaignsList.Pager.Previous | src/components/CampaignsList.tsx:439-442 | going back stops at page one |
| CampaignsList.Pager.Next | src/components/CampaignsList.tsx:469-473 | going forward stops at the last page |
| CampaignsList.Pager.Select | src/components/CampaignsList.tsx:453-457 | clicking a number goes to that page; an ellipsis does nothing |
| CampaignsList.DownloadCampaignDataset | src/components/CampaignsList.tsx:149-193 | the stored bytes (each decoded character modulo 256) under the dataset's name, else the campaign's, with the shared MIME rule |
| CleanConfig.WithColumns | src/components/enrichments/DataCleanOptions.tsx:125-130 | replacing one operation's columns leaves the other lists and every flag alone |
| CleanConfig.WithEnabled | src/components/enrichments/DataCleanOptions.tsx:133-137 | setting one flag leaves the other flags and every list alone |
| CleanConfig.DefaultListsValid | src/contexts/ConfigurationContext.tsx:130-131 | the default word lists have no duplicates and the suffixes are upper-case |
| CleanConfig.AddEntry | src/components/enrichments/DataCleanOptions.tsx:89-96 | a non-empty new entry is appended; an empty or present one changes nothing |
| CleanConfig.AddUpperEntry | src/components/enrichments/DataCleanOptions.tsx:104-111 | the upper-cased entry is appended only when that form is absent |
| CleanConfig.AddKeepsDistinct | src/components/enrichments/DataCleanOptions.tsx:89-111 | adding never creates a duplicate and keeps the suffixes upper-case |
| CleanConfig.AddThenRemove | src/components/enrichments/DataCleanOptions.tsx:89-102 | removing a freshly added entry restores the list |
| DataClean.FilterColumnsSpec | src/components/enrichments/DataCleanOptions.tsx:73-78 | an empty search keeps every column; otherwise exactly the case-insensitive matches, in order |
| DataClean.ColumnDisplayText | src/components/enrichments/DataCleanOptions.tsx:139-143 | `Select columns`, the one name, or `n columns selected` |
| DataClean.CleanOptions.constructor | src/components/enrichments/DataCleanOptions.tsx:38-47 | the effective configuration starts with empty lists and every flag off |
| DataClean.CleanOptions.AddSpecialCharacter | src/components/enrichments/DataCleanOptions.tsx:89-96 | appends the input when it is new and clears the input; nothing else changes |
| DataClean.CleanOptions.RemoveSpecialCharacter | src/components/enrichments/DataCleanOptions.tsx:98-102 | removes every occurrence; nothing else changes |
| DataClean.CleanOptions.AddSuffix | src/components/enrichments/DataCleanOptions.tsx:104-111 | appends the upper-cased input when absent and clears the input |
| DataClean.CleanOptions.RemoveSuffix | src/components/enrichments/DataCleanOptions.tsx:113-117 | removes every occurrence; nothing else changes |
| DataClean.CleanOptions.ColumnToggle | src/components/enrichments/DataCleanOptions.tsx:119-131 | flips one column in one operation's list only |
| DataClean.CleanOptions.EnableToggle | src/components/enrichments/DataCleanOptions.tsx:133-137 | negates exactly one flag |
| DataClean.RemoveKeepsDistinct | src/components/enrichments/DataCleanOptions.tsx:98-117 | removal keeps a list free of duplicates and upper-case |
| ConfigurationPanel.Panel.constructor | src/components/ConfigurationPanel.tsx:17-19 | the local copy starts as the given configuration |
| ConfigurationPanel.Panel.AddSpecialCharacter | src/components/ConfigurationPanel.tsx:25-33 | appends a new non-empty input to the local list only |
| ConfigurationPanel.Panel.RemoveSpecialCharacter | src/components/ConfigurationPanel.tsx:35-40 | removes every occurrence; the other fields are kept |
| ConfigurationPanel.Panel.AddSuffix | src/components/ConfigurationPanel.tsx:42-50 | appends the upper-cased input when absent |
| ConfigurationPanel.Panel.RemoveSuffix | src/components/ConfigurationPanel.tsx:52-57 | removes every occurrence; the other fields are kept |
| ConfigurationPanel.Panel.HandleSave | src/components/ConfigurationPanel.tsx:21-23 | saves the local copy as it is; no edit touches the columns to delete |
| EnrichmentKinds.Title | src/routes/campaigns/new/enrichments.tsx:126-136 | an unknown id is its own title |
| EnrichmentKinds.TitleNamesOne | src/routes/campaigns/new/enrichments.tsx:126-136 | the six titles differ from each other and from every id |
| EnrichmentKinds.ModalBackendType | src/components/enrichments/EnrichmentModal.tsx:45-54 | an unknown id maps to itself |
| EnrichmentKinds.RequestBackendType | src/routes/campaigns/new/enrichments.tsx:489-498 | e-mail generation has no entry and maps to itself |
| EnrichmentKinds.BackendTypesAgree | src/routes/campaigns/new/enrichments.tsx:489-498 | the two mappings agree on every id except e-mail generation, and the modal sends discovery and generation to the same type |
| Enrichments.LlmQueueOfPlain | src/routes/campaigns/new/enrichments.tsx:277-281 | with no special option selected, every selected option runs, in order |
| Enrichments.ProcessPlanSpec | src/routes/campaigns/new/enrichments.tsx:262-283 | data clean, then discovery, then generation take priority; otherwise one LLM run per selected option in order; nothing is done iff nothing is selected |
| Enrichments.SubmitTextMatchesPlan | src/routes/campaigns/new/enrichments.tsx:591-609 | `Processing...` while pending; otherwise the label names the first planned action, or `Process Data` |
| Enrichments.FixesSpec | src/routes/campaigns/new/enrichments.tsx:170-200 | one fix per active operation, in the order special characters, suffixes, de-duplication, each with its non-empty columns |
| Enrichments.BuildFixes | src/routes/campaigns/new/enrichments.tsx:170-200 | the conditional pushes build exactly those fixes |
| Enrichments.CleanGateWeakerThanFixes | src/routes/campaigns/new/enrichments.tsx:650-663 | any fix opens the submit gate, but a flag on one operation with columns on another opens it with no fix |
| Enrichments.CleanRequest | src/routes/campaigns/new/enrichments.tsx:158-211 | a request is sent exactly when both ids are set, a configuration exists and it yields at least one fix; it carries the two ids and those fixes |
| Enrichments.FirstTruthySpec | src/routes/campaigns/new/enrichments.tsx:236-249 | the first set candidate wins, else the default |
| Enrichments.BackendMessageSpec | src/routes/campaigns/new/enrichments.tsx:236-249 | the message is the first set of detail.errorMessage, errorMessage, detail.statusMessage, statusMessage, error.message, else the default |
| Enrichments.LlmFailureSpec | src/routes/campaigns/new/enrichments.tsx:546-578 | model-related messages are titled `LLM Model Not Supported` and rewritten only without `LLM`/`model`; otherwise a 400 is a validation error |
| Enrichments.GenerationFailure | src/routes/campaigns/new/enrichments.tsx:412-449 | missing columns, looked up under `detail` first, set title and message; otherwise a 400 is a validation error |
| Enrichments.LlmRequestFor | src/routes/campaigns/new/enrichments.tsx:472-506 | a request is sent iff both ids, a configuration, a model and a prompt are present, with the back-end type |
| Enrichments.LlmRunsSingle | src/routes/campaigns/new/enrichments.tsx:458-589 | one run marks the option completed on success, records the failure title and message on error, and does nothing else without a request |
| Enrichments.LlmRunsKeepLastOnly | src/routes/campaigns/new/enrichments.tsx:543-544 | of two successful runs in one pass only the last is marked completed |
| Enrichments.EnabledSubmitIsConfigured | src/routes/campaigns/new/enrichments.tsx:611-665 | an enabled submit means a selection and no pending call, a prompt for generation, and a configuration for every LLM run not already completed |
| Enrichments.Page.OpenModal | src/routes/campaigns/new/enrichments.tsx:121-124 | opens the modal for the given type only |
| Enrichments.Page.CloseModal | src/routes/campaigns/new/enrichments.tsx:98-101 | closes the modal and clears the type |
| Enrichments.Page.SaveConfig | src/routes/campaigns/new/enrichments.tsx:103-114 | stores the configuration for the current type only and closes the modal |
| Enrichments.Page.HideCompleted | src/routes/campaigns/new/enrichments.tsx:147-150 | the option disappears from the shown completed list, which loses nothing else |
| Enrichments.Page.IsSubmitDisabled | src/routes/campaigns/new/enrichments.tsx:611-665 | the loop with early returns computes the specified gate |
| Enrichments.Page.RunDataClean | src/routes/campaigns/new/enrichments.tsx:152-260 | sends the specified clean request and records its outcome |
| Enrichments.Page.RunEmailDiscovery | src/routes/campaigns/new/enrichments.tsx:285-348 | requests iff a dataset id is set, and records the outcome |
| Enrichments.Page.RunEmailGeneration | src/routes/campaigns/new/enrichments.tsx:350-456 | requests iff a dataset id and a prompt are set, and records the outcome |
| Enrichments.Page.RunLlmEnrichment | src/routes/campaigns/new/enrichments.tsx:458-589 | sends the specified LLM request and records its outcome |
| Enrichments.Page.ProcessEnrichment | src/routes/campaigns/new/enrichments.tsx:262-283 | clears the error, then runs the action the selection calls for or every LLM run in turn |
| Enrichments.Page.RunLlmQueue | src/routes/campaigns/new/enrichments.tsx:277-281 | runs every selected option without a handler of its own, in order, leaving the setup unchanged; the status is that of the LLM runs over the queue |
| EnrichmentOptions.ModalOpensForConfigurable | src/components/enrichments/EnrichmentOptions.tsx:125-131 | a modal opens for every option except data clean and e-mail discovery |
| EnrichmentOptions.SelectionAfter | src/components/enrichments/EnrichmentOptions.tsx:113-123 | toggling flips the option's membership and keeps the selection to at most one |
| EnrichmentOptions.UnlockedClick | src/components/enrichments/EnrichmentOptions.tsx:160-185 | a click is accepted only with no other selection; it selects or deselects that option |
| EnrichmentOptions.SingleSelectionSingleRun | src/components/enrichments/EnrichmentOptions.tsx:122 | with one option at most selected, at most one LLM run happens |
| EnrichmentOptions.OptionsPanel.OptionToggle | src/components/enrichments/EnrichmentOptions.tsx:113-133 | selecting makes the selection and expansion exactly that option and opens its modal; deselecting removes it from both |
| EnrichmentOptions.OptionsPanel.Click | src/components/enrichments/EnrichmentOptions.tsx:160-185 | a locked click changes nothing |
| EnrichmentOptions.OptionsPanel.ToggleExpanded | src/components/enrichments/EnrichmentOptions.tsx:135-141 | flips one option's expansion |
| EnrichmentOptions.OptionsPanel.ResetCompleted | src/components/enrichments/EnrichmentOptions.tsx:143-146 | removes one option from the completed list, nothing else |
| EnrichmentOptions.OptionsPanel.EditEnrichmentConfig | src/components/enrichments/EnrichmentOptions.tsx:148-150 | opens the modal for that option |
| EnrichmentOptions.OptionsPanel.CompletedChanged | src/components/enrichments/EnrichmentOptions.tsx:46-59 | a clear is scheduled iff some option is newly completed |
| EnrichmentOptions.OptionsPanel.ClearAfterCompletion | src/components/enrichments/EnrichmentOptions.tsx:52-55 | the selection and expansion become empty |
| EnrichmentModal.SaveResult | src/components/enrichments/EnrichmentModal.tsx:164-191 | saving happens iff the button is enabled; generation saves the prompt with model `N/A`, other types save the configuration unchanged |
| EnrichmentModal.SavedConfigRuns | src/components/enrichments/EnrichmentModal.tsx:164-191 | a saved configuration always lets its LLM run send a request |
| EnrichmentModal.Modal.constructor | src/components/enrichments/EnrichmentModal.tsx:109-123 | an existing configuration is copied, else model and prompt start empty |
| EnrichmentModal.Modal.PromptsLoaded | src/components/enrichments/EnrichmentModal.tsx:126-137 | without an existing configuration the first prompt is taken, with model `N/A` for generation |
| EnrichmentModal.Modal.SelectModel | src/components/enrichments/EnrichmentModal.tsx:263 | sets the model only |
| EnrichmentModal.Modal.PromptEdit | src/components/enrichments/EnrichmentModal.tsx:159-162 | sets the prompt and enters editing |
| EnrichmentModal.Modal.ToggleEditing | src/components/enrichments/EnrichmentModal.tsx:309 | flips editing only |
| EnrichmentModal.Modal.Save | src/components/enrichments/EnrichmentModal.tsx:164-191 | returns the specified save result |
| NewCampaign.ExtensionIff | src/components/NewCampaign.tsx:112-116 | the extension test passes for `.csv`/`.xlsx` iff the lower-cased name ends with it |
| NewCampaign.ValidateSpec | src/components/NewCampaign.tsx:111-129 | a file passes iff its name ends in `.csv`/`.xlsx`, its type is allowed and it is at most 50 MiB; the extension is checked first |
| NewCampaign.TooLargeReportsLimit | src/components/NewCampaign.tsx:126-128 | a rejected size is reported as at least 50 MB |
| NewCampaign.AcceptedFilesAreRead | src/components/NewCampaign.tsx:134-136 | every accepted file is handed to the spreadsheet reader |
| NewCampaign.PlaceholderFileValid | src/components/NewCampaign.tsx:75 | the edit form's placeholder file would pass the checks |
| NewCampaign.CreatedIds | src/components/NewCampaign.tsx:167-172 | the ids are taken from results 0 and 1 only when both are set |
| NewCampaign.Form.Mount | src/components/NewCampaign.tsx:62-66 | a fresh start resets the store only when not editing and no campaign exists |
| NewCampaign.Form.EditInit | src/components/NewCampaign.tsx:68-77 | edit mode fills the name, description and placeholder file |
| NewCampaign.Form.HandleFile | src/components/NewCampaign.tsx:107-141 | a failed check records its message and clears the file; an accepted file is stored and read |
| NewCampaign.Form.CreateCampaign | src/components/NewCampaign.tsx:143-192 | the name is checked first, then the file; on success the ids, name, data and step are stored and the error is left as it was |
| NewCampaign.Form.EditCampaign | src/components/NewCampaign.tsx:194-235 | the name is checked first, then the campaign; success closes the form |
| ResultsDisplay.PreviewRows | src/components/ResultsDisplay.tsx:25 | the first ten rows unless all are shown |
| ResultsDisplay.QuotedAll | src/components/ResultsDisplay.tsx:32 | every value is wrapped in quotes as it is |
| ResultsDisplay.ResultLines | src/components/ResultsDisplay.tsx:31-33 | one line per row, in order |
| ResultsDisplay.ResultCsvLines | src/components/ResultsDisplay.tsx:29-34 | without line feeds in the data, the text splits into the header line and one line per row, n+1 in all, with none after the last |
| ResultsDisplay.QuotedLineReadBack | src/components/ResultsDisplay.tsx:32 | values without quotes are read back by the dataset parser unchanged |
| ResultsDisplay.QuoteInValueSplits | src/components/ResultsDisplay.tsx:32 | a value `u",v` is read back as the two values `u` and `v`, because its quote is not doubled |
| ResultsDisplay.DownloadName | src/components/ResultsDisplay.tsx:40 | the name is `processed_` followed by the file name |
| CompletedEnrichments.DatasetMime | src/components/enrichments/CompletedEnrichments.tsx:31-37 | the spreadsheet type iff `xlsx`, CSV iff `csv`, else the generic type |
| CompletedEnrichments.DatasetMimeAgrees | src/components/enrichments/CompletedEnrichments.tsx:31-37 | agrees with the stored-dataset rule on lower-case types, but not on `XLSX` |
| CompletedEnrichments.TypeOr | src/components/enrichments/CompletedEnrichments.tsx:94-100 | the dataset type when set, else `csv` |
| CompletedEnrichments.DatePart | src/components/enrichments/CompletedEnrichments.tsx:93 | the timestamp's text before its first `T` |
| CompletedEnrichments.DownloadNameParts | src/components/enrichments/CompletedEnrichments.tsx:93-94 | the name starts with the option and `-processed-` and ends with `.` and the type, which is all that follows the last dot |
| CompletedEnrichments.CardTitleAgrees | src/components/enrichments/CompletedEnrichments.tsx:126-169 | each card's heading is the page's title for the option; data clean has its own |
| CompletedEnrichments.Rendered | src/components/enrichments/CompletedEnrichments.tsx:171-173 | nothing is rendered iff no option is completed |
| CompletedEnrichments.CardsSpec | src/components/enrichments/CompletedEnrichments.tsx:179-181 | the cards are the known completed options in order, each disabled exactly while downloading |
| CompletedEnrichments.DownloadFromBase64 | src/components/enrichments/CompletedEnrichments.tsx:21-56 | no file when decoding fails; otherwise the decoded bytes under the name with the type's MIME |
| CompletedEnrichments.DownloadOutcome | src/components/enrichments/CompletedEnrichments.tsx:66-124 | no dataset id stops first; then missing or empty content gives no content; the file is saved exactly when there is content that decodes, under the generated name; otherwise the decoding failed |
| CompletedEnrichments.CompletedPanel.HandleDownload | src/components/enrichments/CompletedEnrichments.tsx:66-125 | the option is marked while the download runs and all its marks are taken off at the end, whatever the outcome; a saved file holds every decoded character modulo 256 |
| Header.EmailUser | src/components/Header.tsx:38 | the address's text before its first `@` |
| Header.DisplayNameChoice | src/components/Header.tsx:24-42 | the name, else the user name, else the e-mail user, else `Developer` or `User`; an empty name only comes from an address starting with `@` |
| Header.Initials | src/components/Header.tsx:44-52 | at most two characters |
| Header.FirstCharsAreWordStarts | src/components/Header.tsx:46-49 | joining the pieces' first characters gives the characters that start a word |
| Header.InitialsSpec | src/components/Header.tsx:44-52 | the initials are the first two upper-cased word starts; they hold no space, and a name without words has none |
| Header.DoubledSpaceSameInitials | src/components/Header.tsx:47-48 | doubling a space between words does not change the initials |
| Navigation.ClickableIffActiveOrCompleted | src/components/Navigation.tsx:30-33 | a step is clickable iff it is active or completed, never both |
| Navigation.StepClick | src/components/Navigation.tsx:17-21 | the step's number is handed on iff it is clickable and there is a handler |
| Navigation.ClickNeverAdvances | src/components/Navigation.tsx:17-33 | a click never hands on a step beyond the current one |
| Navigation.LockedIffDisabled | src/components/Navigation.tsx:39-46 | a button looks locked iff it is disabled |
| Navigation.LooksInOrder | src/components/Navigation.tsx:28-46 | along increasing step numbers, done steps come before the current one, which comes before locked ones, and at most one is current |
| JsText.TrimSpec | src/components/enrichments/ExcelPreview.tsx:145 | `trim` returns a slice of the input with only white space before and after it, and with no white space left at either end |
| JsText.SplitJoin | src/components/ResultsDisplay.tsx:34 | splitting a join at a separator that no piece holds gives back the pieces |
| JsText.FirstPieceSpec | src/components/Header.tsx:38 | `split(c)[0]` is the text before the first `c` |
| Lists.DedupIsIndexOfFilter | src/components/DataPreview.tsx:334 | the `indexOf` filter keeps each element's first occurrence |
| Lists.ToggleTwice | src/components/enrichments/EnrichmentOptions.tsx:135-141 | toggling twice restores the members |

## Left out

- ExcelPreview.tsx, DataPreview.tsx and CampaignDetails.tsx each hold a copy of `parseCSVContent` and `parseXLSXWithSheetJS`. The copies differ only in logging, so they are modelled once in `Tabular`.
- The row cap follows the code: the loop runs while the index is below min(lines, 1000), which gives 999 rows, not 1000.
- Quote stripping follows the code. A field written `"hello, ""world"""` is read as `hello, "world`, because the trailing quote produced by the `""` escape is stripped too.
- Base64 decoding, the spreadsheet library (reading and writing workbooks) and `JSON.parse` are not modelled. Their outcomes are parameters.
  - DownloadCurrentDataset: the spreadsheet branch gives only the file name; the workbook's bytes are not modelled.
- `toLowerCase`/`toUpperCase` are modelled for ASCII letters only. Characters whose case mapping changes length, or non-ASCII letters, are left as they are.
- Object-key order is modelled as first-occurrence order of the header. JavaScript puts integer-like keys first; such header names are not modelled.
- Prototype keys (`constructor`, `toString`, ...) that a JavaScript object lookup would find are not modelled. `Title`, `Known` and the back-end type maps see only their listed entries.
- ResultsDisplay: falsy non-string cell values (`0`, `false`) are not modelled. Cells are strings, and `''` is the only falsy one.
- The percentages and statistics on the results screen are floating-point ratios and are not modelled.
- Asynchronous interleaving, React re-render timing, toasts, timers (the 2-second auto-collapse is a separate method) and animations are not modelled.
- Enrichments.LlmRunsKeepLastOnly: several LLM runs in one pass each append to the completed list as it was before the pass, so only the last survives. Single selection means the page never starts two runs.
- The completion dialog, navigation between steps and routing are not modelled. The step bar's click hands a number on; what the wizard then does is not modelled.
- The current date is a parameter (an ISO timestamp string), not read from a clock.
- The processing-pipeline simulation, the network client and query hooks, authentication and the identity-provider bootstrap, the configuration context and the presentational components are not part of this model.
- Header.Initials: its own contract states only the length bound. Its content is stated by `Header.InitialsSpec`.
- CompletedEnrichments.CompletedPanel.HandleDownload: an exception thrown by the notification calls is not modelled. Only the decoding can fail.
- CampaignStore.Store.ParseExcelFile: `excelColumns` is modelled as the names of the non-blank header cells. The source stores the sparse header array itself, and its `length` also counts the holes. The model therefore differs in the "columns" count and in the `excelColumns.length > 0` test only when the first row has blank cells. Storage turns such holes into `null`, and that is not modelled either.
- DatasetPreview.DispatchOutcome: the JSON fallback is modelled only for arrays of objects. In the source, an array of numbers or strings is shown as rows with no columns, and an array whose first element is `null` sets the rows and then throws in `Object.keys`. Neither case is represented.
- Header.Initials: strings are sequences of Unicode scalar values. `charAt(0)` and `slice(0, 2)` count UTF-16 code units, so for a name that starts with a character outside the Basic Multilingual Plane (an emoji, say), the source yields a lone surrogate where the model yields the whole character.
