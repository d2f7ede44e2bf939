/**
 * The new-campaign form: a campaign name and description and one uploaded
 * file.  An upload is checked for its extension, then its MIME type, then
 * its size, and read into rows; the first failure is shown and the file is
 * dropped.  Creating a campaign needs a name and a file, editing one a name
 * and the campaign; the server's answers are parameters.
 */
module NewCampaign {
  import opened Wrappers
  import opened JsText
  import opened CampaignStore
  import RawDownload

  /** `file.name.toLowerCase().substring(file.name.lastIndexOf('.'))`: from the last dot on, or the
      whole name when it has none. */
  function Extension(name: string): string {
    SubstringFrom(ToLower(name), LastIndexOf(name, '.'))
  }

  const AllowedExtensions: seq<string> := [".csv", ".xlsx"]
  const ValidTypes: seq<string> := [RawDownload.CsvMime, RawDownload.XlsxMime]

  /** 50 MB. */
  const MaxSize: nat := 50 * 1024 * 1024

  datatype UploadError = BadExtension | BadFormat | TooLarge(size: nat)

  /** The first check the file fails, if any. */
  function Validate(file: UploadedFile): Option<UploadError> {
    if Extension(file.name) !in AllowedExtensions then Some(BadExtension)
    else if file.mimeType !in ValidTypes then Some(BadFormat)
    else if file.size > MaxSize then Some(TooLarge(file.size))
    else None
  }

  /** `Math.round(size / (1024 * 1024))`. */
  function RoundedMegabytes(size: nat): nat {
    (size + 524288) / 1048576
  }

  function ErrorText(e: UploadError): string {
    match e
    case BadExtension => "Invalid file type. Only .csv and .xlsx files are allowed."
    case BadFormat => "Invalid file format. Please ensure your file is a valid CSV or Excel (.xlsx) file."
    case TooLarge(size) =>
      "File size (" + NatText(RoundedMegabytes(size)) + "MB) exceeds the 50MB limit. Please upload a smaller file."
  }

  lemma {:induction false} LowerDot(c: char)
    ensures LowerChar(c) == '.' <==> c == '.'
  {
  }

  /** The extension check accepts exactly the names ending in `.csv` or `.xlsx`, in any case. */
  lemma {:induction false} ExtensionIff(name: string, ext: string)
    requires ext in AllowedExtensions
    ensures Extension(name) == ext <==> EndsWith(ToLower(name), ext)
  {
    var lower := ToLower(name);
    var r := LastIndexOf(name, '.');
    assert ext[0] == '.' && forall k :: 1 <= k < |ext| ==> ext[k] != '.';
    if Extension(name) == ext {
      if r == -1 {
        assert false;
      }
      assert lower[r..] == ext;
    }
    if EndsWith(lower, ext) {
      var p := |lower| - |ext|;
      assert lower[p] == ext[0];
      LowerDot(name[p]);
      forall k | p < k < |name| ensures name[k] != '.' {
        assert lower[k] == ext[k - p];
        LowerDot(name[k]);
      }
      assert r == p;
      assert lower[p..] == ext;
    }
  }

  /** An accepted file ends in `.csv` or `.xlsx` ignoring case, has one of the two MIME types, and is
      at most 50 MB; a rejection names the first of the three checks that fails. */
  lemma ValidateSpec(file: UploadedFile)
    ensures Validate(file).None? <==>
              && (EndsWith(ToLower(file.name), ".csv") || EndsWith(ToLower(file.name), ".xlsx"))
              && file.mimeType in ValidTypes
              && file.size <= MaxSize
    ensures Validate(file) == Some(BadExtension) <==>
              !EndsWith(ToLower(file.name), ".csv") && !EndsWith(ToLower(file.name), ".xlsx")
  {
    ExtensionIff(file.name, ".csv");
    ExtensionIff(file.name, ".xlsx");
  }

  /** A rejected size is reported as at least the 50 MB limit. */
  lemma TooLargeReportsLimit(size: nat)
    requires size > MaxSize
    ensures RoundedMegabytes(size) >= 50
  {
  }

  /** Every file that passes the checks is read into rows. */
  lemma AcceptedFilesAreRead(file: UploadedFile)
    requires Validate(file).None?
    ensures Readable(file.mimeType)
  {
    IncludesAt(RawDownload.CsvMime, "csv", 5);
    IncludesAt(RawDownload.XlsxMime, "sheet", 52);
  }

  /** `t` occurs in `s` from index `i`. */
  lemma {:induction false} IncludesAt(s: string, t: string, i: nat)
    requires i + |t| <= |s| && s[i..i + |t|] == t
    ensures Includes(s, t)
  {
    IncludesIff(s, t);
    assert OccursAt(s, t, i);
  }

  /** The MIME types the form reads into rows. */
  predicate Readable(mimeType: string) {
    Includes(mimeType, "sheet") || Includes(mimeType, "excel") || Includes(mimeType, "csv")
  }

  /** A name ending in `.csv` still ends in it once lower-cased. */
  lemma {:induction false} LowerKeepsCsv(full: string)
    requires EndsWith(full, ".csv")
    ensures EndsWith(ToLower(full), ".csv")
  {
    var lower := ToLower(full);
    var p := |full| - 4;
    forall k | 0 <= k < 4 ensures lower[p + k] == ".csv"[k] {
      assert full[p + k] == full[p..][k];
    }
    assert lower[p..] == ".csv";
  }

  /** The placeholder file the edit form shows passes the checks. */
  lemma PlaceholderFileValid(name: string)
    ensures Validate(UploadedFile(name + "_data.csv", RawDownload.CsvMime, 0)).None?
  {
    var full := name + "_data.csv";
    assert full[|full| - 4..] == ".csv";
    LowerKeepsCsv(full);
    ExtensionIff(full, ".csv");
  }

  /** One entry of the create call's results. */
  datatype ResultEntry = ResultEntry(campaignId: Option<string>, datasetId: Option<string>)

  predicate Present(s: Option<string>) {
    s.Some? && s.value != []
  }

  /** `results[0]?.campaign_id` and `results[1]?.dataset_id`, when both are present. */
  function CreatedIds(results: seq<ResultEntry>): (r: Option<(string, string)>)
    ensures r.Some? <==> |results| >= 2 && Present(results[0].campaignId) && Present(results[1].datasetId)
    ensures r.Some? ==> r.value == (results[0].campaignId.value, results[1].datasetId.value)
  {
    var c := if |results| > 0 then results[0].campaignId else None;
    var d := if |results| > 1 then results[1].datasetId else None;
    if Present(c) && Present(d) then Some((c.value, d.value)) else None
  }

  datatype CreateRequest = CreateRequest(name: string, description: Option<string>, dataset: UploadedFile)
  datatype EditRequest = EditRequest(campaignId: string, name: string, description: Option<string>)

  /** The server's answer to a create or edit request; a failure may carry an error message. */
  datatype Reply<T> = Done(value: T) | Failed(message: Option<string>)

  /** `description || undefined`. */
  function OptionalText(s: string): Option<string> {
    if s == [] then None else Some(s)
  }

  class Form {
    const store: Store
    var error: string

    /** The store holds no file the checks would refuse. */
    predicate Valid()
      reads this, store
    {
      store.uploadedFile.Some? ==> Validate(store.uploadedFile.value).None?
    }

    constructor(s: Store)
      requires s.uploadedFile.Some? ==> Validate(s.uploadedFile.value).None?
      ensures store == s && error == "" && Valid()
    {
      store := s;
      error := "";
    }

    /** Mounting outside edit mode with no campaign created yet starts a new campaign. */
    method Mount(editMode: bool, hasCampaignToEdit: bool)
      requires Valid()
      modifies store
      ensures !editMode && !hasCampaignToEdit && !Present(old(store.createdCampaignId)) ==> store.Snapshot() == Initial
      ensures editMode || hasCampaignToEdit || Present(old(store.createdCampaignId)) ==> store.Snapshot() == old(store.Snapshot())
      ensures Valid()
    {
      if !editMode && !hasCampaignToEdit && !Present(store.createdCampaignId) {
        store.StartNewCampaign();
      }
    }

    /** Edit mode shows the campaign's name and description and a placeholder CSV file. */
    method EditInit(name: string, description: string)
      modifies store
      ensures store.Snapshot() ==
                old(store.Snapshot()).(campaignInfo := CampaignInfo(name, description),
                                       uploadedFile := Some(UploadedFile(name + "_data.csv", RawDownload.CsvMime, 0)))
      ensures Valid()
    {
      store.SetCampaignInfo(CampaignInfo(name, description));
      PlaceholderFileValid(name);
      store.SetUploadedFile(Some(UploadedFile(name + "_data.csv", RawDownload.CsvMime, 0)));
    }

    /** `handleFile`: check, keep and read the file; on the first failure show it and drop the file. */
    method HandleFile(file: UploadedFile, outcome: SheetOutcome, readErrorMessage: Option<string>) returns (accepted: bool)
      requires Valid()
      modifies this, store
      ensures Valid()
      ensures accepted <==> Validate(file).None? && !outcome.ReadError?
      ensures Validate(file).Some? ==>
                error == ErrorText(Validate(file).value) && store.Snapshot() == old(store.Snapshot()).(uploadedFile := None)
      ensures Validate(file).None? && outcome.ReadError? ==>
                && error == readErrorMessage.GetOr("Failed to process file")
                && store.Snapshot() == old(store.Snapshot()).(uploadedFile := None, isLoadingExcel := false)
      ensures accepted ==> error == "" && store.Snapshot() == Parsed(old(store.Snapshot()).(uploadedFile := Some(file)), outcome)
      ensures store.Saved()
    {
      error := "";
      var problem := Validate(file);
      if problem.Some? {
        error := ErrorText(problem.value);
        store.SetUploadedFile(None);
        return false;
      }
      store.SetUploadedFile(Some(file));
      AcceptedFilesAreRead(file);
      if Readable(file.mimeType) {
        var failed := store.ParseExcelFile(outcome);
        if failed {
          error := readErrorMessage.GetOr("Failed to process file");
          store.SetUploadedFile(None);
          return false;
        }
      }
      return true;
    }

    /** `handleCreateCampaign`: a name, then a file; on success the ids when both came back, the file
        name, empty rows and the preview step. */
    method CreateCampaign(reply: Reply<seq<ResultEntry>>) returns (request: Option<CreateRequest>)
      requires Valid()
      modifies this, store
      ensures Valid()
      ensures Trim(old(store.campaignInfo.name)) == [] ==>
                request.None? && error == "Please enter a campaign name" && store.Snapshot() == old(store.Snapshot())
      ensures Trim(old(store.campaignInfo.name)) != [] && old(store.uploadedFile).None? ==>
                request.None? && error == "Please upload a file first" && store.Snapshot() == old(store.Snapshot())
      ensures request.Some? <==> Trim(old(store.campaignInfo.name)) != [] && old(store.uploadedFile).Some?
      ensures request.Some? ==>
                request.value == CreateRequest(old(store.campaignInfo.name), OptionalText(old(store.campaignInfo.description)),
                                               old(store.uploadedFile).value)
      ensures request.Some? && reply.Failed? ==>
                error == reply.message.GetOr("Failed to create campaign") && store.Snapshot() == old(store.Snapshot())
      ensures request.Some? && reply.Done? ==>
                var ids := CreatedIds(reply.value);
                var s := old(store.Snapshot());
                var s1 := if ids.Some? then s.(createdCampaignId := Some(ids.value.0), createdDatasetId := Some(ids.value.1)) else s;
                store.Snapshot() == s1.(fileName := Some(s.uploadedFile.value.name), uploadedData := Some([]), currentStep := 1)
                && error == old(error)
    {
      if Trim(store.campaignInfo.name) == [] {
        error := "Please enter a campaign name";
        return None;
      }
      if store.uploadedFile.None? {
        error := "Please upload a file first";
        return None;
      }
      var file := store.uploadedFile.value;
      request := Some(CreateRequest(store.campaignInfo.name, OptionalText(store.campaignInfo.description), file));
      match reply {
        case Failed(message) =>
          error := message.GetOr("Failed to create campaign");
        case Done(results) =>
          var ids := CreatedIds(results);
          if ids.Some? {
            store.SetCreatedCampaign(ids.value.0, ids.value.1);
          }
          store.SetFileName(file.name);
          store.SetUploadedData([]);
          store.SetCurrentStep(1);
      }
    }

    /** `handleEditCampaign`: a name, then a campaign; returns whether the form closes. */
    method EditCampaign(campaignToEdit: Option<string>, reply: Reply<()>) returns (request: Option<EditRequest>, closed: bool)
      modifies this
      ensures Trim(store.campaignInfo.name) == [] ==> request.None? && error == "Please enter a campaign name"
      ensures Trim(store.campaignInfo.name) != [] && campaignToEdit.None? ==> request.None? && error == "No campaign to edit"
      ensures request.Some? <==> Trim(store.campaignInfo.name) != [] && campaignToEdit.Some?
      ensures request.Some? ==>
                request.value == EditRequest(campaignToEdit.value, store.campaignInfo.name, OptionalText(store.campaignInfo.description))
      ensures closed <==> request.Some? && reply.Done?
      ensures request.Some? && reply.Failed? ==> error == reply.message.GetOr("Failed to update campaign")
      ensures request.Some? && reply.Done? ==> error == old(error)
    {
      closed := false;
      if Trim(store.campaignInfo.name) == [] {
        error := "Please enter a campaign name";
        return None, false;
      }
      if campaignToEdit.None? {
        error := "No campaign to edit";
        return None, false;
      }
      request := Some(EditRequest(campaignToEdit.value, store.campaignInfo.name, OptionalText(store.campaignInfo.description)));
      match reply {
        case Failed(message) =>
          error := message.GetOr("Failed to update campaign");
        case Done(_) =>
          closed := true;
      }
    }
  }
}
