/**
 * The list of completed enrichments on the enrichments page.  Each known
 * completed option gets a card with a download button; a download fetches
 * the dataset's current content from the server's last answer and saves it
 * under a name made of the option, the date and the dataset type.  While a
 * download runs its option is marked as downloading, and the mark is taken
 * off again whatever the outcome.
 */
module CompletedEnrichments {
  import opened Wrappers
  import opened JsText
  import opened Lists
  import opened EnrichmentKinds
  import opened RawDownload
  import opened CampaignStore

  // ---- File type and name ----

  /** The MIME type for a dataset type, compared as written (no case folding). */
  function DatasetMime(datasetType: string): (r: string)
    ensures r == XlsxMime <==> datasetType == "xlsx"
    ensures r == CsvMime <==> datasetType == "csv"
    ensures r == OtherMime <==> datasetType != "xlsx" && datasetType != "csv"
  {
    if datasetType == "xlsx" then XlsxMime
    else if datasetType != "csv" then OtherMime
    else CsvMime
  }

  /** For a type written in lower case the choice agrees with the stored-dataset download's choice by
      type alone; a type such as `XLSX` is told apart there but not here. */
  lemma DatasetMimeAgrees(datasetType: string)
    ensures ToLower(datasetType) == datasetType ==> DatasetMime(datasetType) == Mime(KindOf(Some(datasetType), None))
    ensures datasetType == "XLSX" ==> DatasetMime(datasetType) == OtherMime && Mime(KindOf(Some(datasetType), None)) == XlsxMime
  {
    assert !EndsWith("", ".xls");
    if datasetType == "XLSX" {
      assert ToLower(datasetType) == "xlsx";
    }
  }

  /** `dataset_type || 'csv'`. */
  function TypeOr(datasetType: Option<string>): (r: string)
    ensures r != []
    ensures datasetType.Some? && datasetType.value != [] ==> r == datasetType.value
    ensures datasetType.None? || datasetType.value == [] ==> r == "csv"
  {
    if datasetType.Some? && datasetType.value != [] then datasetType.value else "csv"
  }

  /** The date part of an ISO timestamp: the text before its first `T`. */
  function DatePart(isoTimestamp: string): (r: string)
    ensures 'T' !in r
    ensures StartsWith(isoTimestamp, r)
    ensures r == isoTimestamp || isoTimestamp[|r|] == 'T'
  {
    FirstPieceSpec(isoTimestamp, 'T');
    Split(isoTimestamp, 'T')[0]
  }

  /** `${optionId}-processed-${date}.${dataset_type || 'csv'}`. */
  function DownloadName(optionId: string, isoTimestamp: string, datasetType: Option<string>): string {
    optionId + "-processed-" + DatePart(isoTimestamp) + "." + TypeOr(datasetType)
  }

  /** The name starts with the option and ends with the dataset type after a dot; a type without a dot
      is exactly what follows the name's last dot, so the name's extension is the type the MIME type
      was chosen from. */
  lemma DownloadNameParts(optionId: string, isoTimestamp: string, datasetType: Option<string>)
    ensures var name := DownloadName(optionId, isoTimestamp, datasetType);
      && StartsWith(name, optionId + "-processed-")
      && EndsWith(name, "." + TypeOr(datasetType))
    ensures var name := DownloadName(optionId, isoTimestamp, datasetType);
      '.' !in TypeOr(datasetType) ==> SubstringFrom(name, LastIndexOf(name, '.') + 1) == TypeOr(datasetType)
  {
    NameEnds(optionId + "-processed-", DatePart(isoTimestamp), TypeOr(datasetType));
    if '.' !in TypeOr(datasetType) {
      NameExtension(optionId + "-processed-" + DatePart(isoTimestamp), TypeOr(datasetType));
    }
  }

  /** A name `pre`, `mid`, a dot and `ext` starts with `pre` and ends with the dot and `ext`. */
  lemma NameEnds(pre: string, mid: string, ext: string)
    ensures StartsWith(pre + mid + "." + ext, pre) && EndsWith(pre + mid + "." + ext, "." + ext)
  {
    var head := pre + mid;
    var dot: string := ['.'];
    assert "." == dot;
    ConcatEnds(pre, mid);
    StartsWithGrows(head, pre, dot);
    StartsWithGrows(head + dot, pre, ext);
    Assoc(head, dot, ext);
    ConcatEnds(head, dot + ext);
  }

  /** After the last dot of `head`, a dot and an `ext` without dots comes `ext`. */
  lemma NameExtension(head: string, ext: string)
    requires '.' !in ext
    ensures SubstringFrom(head + "." + ext, LastIndexOf(head + "." + ext, '.') + 1) == ext
  {
    var dot: string := ['.'];
    assert "." == dot;
    LastIndexBeforeTail(head + "." + ext, head, '.', ext);
  }

  // ---- The cards ----

  /** The options with a card of their own. */
  predicate Known(id: string) {
    id in {DataClean, JobTitleEnrichment, DomainEnrichment, EmailDiscovery, ProductServiceDiscovery, GenerateUseCases, EmailGeneration}
  }

  /** A card's heading. */
  function CardTitle(id: string): string {
    if id == DataClean then "Data Clean" else Title(id)
  }

  /** Every card is headed as the page titles the option, except data clean, which the page leaves
      untitled. */
  lemma CardTitleAgrees(id: string)
    requires Known(id)
    ensures id != DataClean ==> CardTitle(id) == Title(id) && HasTitle(id)
    ensures id == DataClean ==> !HasTitle(id) && CardTitle(id) != Title(id)
  {
  }

  /** One card: the option, its heading, and whether its download button is disabled. */
  datatype Card = Card(id: string, title: string, downloading: bool)

  function CardsOf(completed: seq<string>, downloading: seq<string>): (r: seq<Card>)
    ensures |r| <= |completed|
  {
    if completed == [] then []
    else
      var rest := CardsOf(completed[1..], downloading);
      var id := completed[0];
      if Known(id) then [Card(id, CardTitle(id), id in downloading)] + rest else rest
  }

  /** The list: nothing at all without completed options, otherwise a card for each known one. */
  function Rendered(completed: seq<string>, downloading: seq<string>): (r: Option<seq<Card>>)
    ensures r.None? <==> completed == []
  {
    if completed == [] then None else Some(CardsOf(completed, downloading))
  }

  /** The cards are the known completed options in their order, unknown ones skipped, each headed by
      its title and disabled exactly while it downloads. */
  lemma {:induction false} CardsSpec(completed: seq<string>, downloading: seq<string>)
    ensures Map(CardsOf(completed, downloading), (c: Card) => c.id) == Filter(completed, Known)
    ensures forall k :: 0 <= k < |CardsOf(completed, downloading)| ==>
              var c := CardsOf(completed, downloading)[k];
              Known(c.id) && c.title == CardTitle(c.id) && (c.downloading <==> c.id in downloading)
  {
    if completed != [] {
      CardsSpec(completed[1..], downloading);
    }
  }

  // ---- Downloading ----

  /** What the server last said about the dataset: `result.content` and `result.dataset_type`, when
      there is a result. */
  datatype DatasetResult = DatasetResult(content: Option<string>, datasetType: Option<string>)

  /** How a download ends. */
  datatype Outcome = NoDatasetId | NoContent | Saved(fileName: string) | DecodeFailed

  /** `downloadFileFromBase64`: the decoded bytes (`decoded` is what `atob` yields on the content, none
      when it throws) under the given name, typed by the dataset type. */
  method DownloadFromBase64(decoded: Option<string>, fileName: string, datasetType: string) returns (file: Option<RawFile>)
    ensures decoded.None? <==> file.None?
    ensures decoded.Some? ==>
              && file.value.fileName == fileName
              && file.value.mime == DatasetMime(datasetType)
              && |file.value.bytes| == |decoded.value|
              && forall i :: 0 <= i < |decoded.value| ==> file.value.bytes[i] as int == (decoded.value[i] as int) % 256
  {
    if decoded.None? {
      return None;
    }
    var bytes := BytesOf(decoded.value);
    file := Some(RawFile(fileName, DatasetMime(datasetType), bytes[..]));
  }

  /** What a download does, given the dataset id, the server's answer, the time and the decoding. */
  function DownloadOutcome(datasetId: Option<string>, response: Option<DatasetResult>, isoTimestamp: string,
                           optionId: string, decoded: Option<string>): (r: Outcome)
    ensures r == NoDatasetId <==> datasetId.None? || datasetId.value == []
    ensures r.Saved? <==> && datasetId.Some? && datasetId.value != []
                          && response.Some? && response.value.content.Some? && response.value.content.value != []
                          && decoded.Some?
    ensures r == NoContent <==> && datasetId.Some? && datasetId.value != []
                                && (response.None? || response.value.content.None? || response.value.content.value == [])
    ensures r == DecodeFailed <==> && datasetId.Some? && datasetId.value != []
                                   && response.Some? && response.value.content.Some? && response.value.content.value != []
                                   && decoded.None?
    ensures r.Saved? ==> r.fileName == DownloadName(optionId, isoTimestamp, response.value.datasetType)
  {
    if datasetId.None? || datasetId.value == [] then NoDatasetId
    else if response.None? || response.value.content.None? || response.value.content.value == [] then NoContent
    else if decoded.None? then DecodeFailed
    else Saved(DownloadName(optionId, isoTimestamp, response.value.datasetType))
  }

  class CompletedPanel {
    const store: Store
    var downloading: seq<string>

    constructor(s: Store)
      ensures store == s && downloading == []
    {
      store := s;
      downloading := [];
    }

    /** `handleDownload`: without a dataset id nothing else happens; otherwise the option is marked,
        the file is saved when there is content that decodes, and every mark of the option is taken off
        at the end whatever happened. */
    method HandleDownload(optionId: string, response: Option<DatasetResult>, isoTimestamp: string, decoded: Option<string>)
      returns (outcome: Outcome, file: Option<RawFile>)
      modifies this
      ensures outcome == DownloadOutcome(store.createdDatasetId, response, isoTimestamp, optionId, decoded)
      ensures outcome == NoDatasetId ==> downloading == old(downloading)
      ensures outcome != NoDatasetId ==> downloading == RemoveAll(old(downloading), optionId)
      ensures optionId !in downloading || outcome == NoDatasetId
      ensures file.Some? <==> outcome.Saved?
      ensures outcome.Saved? ==> file.value.fileName == outcome.fileName
                                 && file.value.mime == DatasetMime(TypeOr(response.value.datasetType))
                                 && |file.value.bytes| == |decoded.value|
                                 && forall i :: 0 <= i < |decoded.value| ==>
                                      file.value.bytes[i] as int == (decoded.value[i] as int) % 256
    {
      file := None;
      if store.createdDatasetId.None? || store.createdDatasetId.value == [] {
        return NoDatasetId, None;
      }
      var before := downloading;
      downloading := downloading + [optionId];
      if response.None? || response.value.content.None? || response.value.content.value == [] {
        outcome := NoContent;
      } else {
        var fileName := DownloadName(optionId, isoTimestamp, response.value.datasetType);
        file := DownloadFromBase64(decoded, fileName, TypeOr(response.value.datasetType));
        outcome := if file.Some? then Saved(fileName) else DecodeFailed;
      }
      RemoveAllAfterAppend(before, optionId);
      downloading := RemoveAll(downloading, optionId);
    }
  }
}
