/**
 * The campaign details page: it parses the campaign's first dataset with
 * the primary parser alone (`DatasetPreview.DetailsRows`), shows its first
 * ten rows, downloads the stored file, and can hand the campaign to the
 * enrichment steps by filling the campaign store.
 */
module CampaignDetails {
  import opened JsText
  import opened Lists
  import opened Wrappers
  import opened Tabular
  import opened DatasetPreview
  import opened CampaignStore

  /** The campaign as the server returns it. */
  datatype CampaignResult = CampaignResult(name: string, description: string, datasetIds: seq<string>)

  /** `result?.dataset_uuids?.[0] || null`. */
  function FirstDatasetId(campaign: Option<CampaignResult>): (r: Option<string>)
    ensures r.Some? <==> campaign.Some? && campaign.value.datasetIds != [] && campaign.value.datasetIds[0] != []
    ensures r.Some? ==> r.value == campaign.value.datasetIds[0]
  {
    if campaign.Some? && |campaign.value.datasetIds| > 0 && campaign.value.datasetIds[0] != [] then
      Some(campaign.value.datasetIds[0])
    else None
  }

  /** The rows of the table: the first ten unless all are asked for. */
  function DetailsDisplayRows(rows: seq<Row>, showAll: bool): (r: seq<Row>)
    ensures showAll ==> r == rows
    ensures !showAll ==> |r| == Min(|rows|, 10) && r == rows[..|r|]
  {
    Shown(rows, showAll, 10)
  }

  /** `s.replace(/\s+/g, '_')`: every run of white space becomes one underscore. */
  function Underscored(s: string): (r: string)
    ensures |r| <= |s|
    decreases |s|
  {
    if s == [] then []
    else if IsSpace(s[0]) then "_" + Underscored(TrimStart(s[1..]))
    else [s[0]] + Underscored(s[1..])
  }

  /** No white space survives, a name without white space is kept, and the first character is kept or
      becomes the underscore of a leading run. */
  lemma {:induction false} UnderscoredSpec(s: string)
    ensures forall k :: 0 <= k < |Underscored(s)| ==> !IsSpace(Underscored(s)[k])
    ensures (forall k :: 0 <= k < |s| ==> !IsSpace(s[k])) ==> Underscored(s) == s
    ensures s != [] ==> Underscored(s) != [] && Underscored(s)[0] == (if IsSpace(s[0]) then '_' else s[0])
    decreases |s|
  {
    if s != [] {
      assert !IsSpace('_');
      if IsSpace(s[0]) {
        UnderscoredSpec(TrimStart(s[1..]));
      } else {
        UnderscoredSpec(s[1..]);
        if forall k :: 0 <= k < |s| ==> !IsSpace(s[k]) {
          assert forall k :: 0 <= k < |s[1..]| ==> !IsSpace(s[1..][k]) by {
            forall k | 0 <= k < |s[1..]| ensures !IsSpace(s[1..][k]) {
              assert s[1..][k] == s[k + 1];
            }
          }
          assert [s[0]] + s[1..] == s;
        }
      }
    }
  }

  /** `trim`'s start skips a whole run of white space and stops at the first other character. */
  lemma {:induction false} TrimStartSkipsRun(w: string, b: string)
    requires forall k :: 0 <= k < |w| ==> IsSpace(w[k])
    requires b == [] || !IsSpace(b[0])
    ensures TrimStart(w + b) == b
    decreases |w|
  {
    if w == [] {
      assert w + b == b;
    } else {
      assert (w + b)[1..] == w[1..] + b;
      TrimStartSkipsRun(w[1..], b);
    }
  }

  /** A run of white space, however long, becomes one underscore before the rest is replaced in turn. */
  lemma RunIsOneUnderscore(w: string, b: string)
    requires w != [] && forall k :: 0 <= k < |w| ==> IsSpace(w[k])
    requires b == [] || !IsSpace(b[0])
    ensures Underscored(w + b) == "_" + Underscored(b)
  {
    assert (w + b)[0] == w[0];
    assert (w + b)[1..] == w[1..] + b;
    TrimStartSkipsRun(w[1..], b);
  }

  /** Whichever way a text splits into a leading run of white space and a rest, the run becomes one underscore. */
  lemma LeadingRun(s: string)
    ensures forall w, b ::
              (s == w + b && w != [] && (forall k :: 0 <= k < |w| ==> IsSpace(w[k])) && (b == [] || !IsSpace(b[0])))
              ==> Underscored(s) == "_" + Underscored(b)
  {
    forall w, b | s == w + b && w != [] && (forall k :: 0 <= k < |w| ==> IsSpace(w[k])) && (b == [] || !IsSpace(b[0]))
      ensures Underscored(s) == "_" + Underscored(b)
    {
      RunIsOneUnderscore(w, b);
    }
  }

  /** A character that is not white space is kept, and the replacement goes on after it. */
  lemma KeepsOtherChar(c: char, s: string)
    requires !IsSpace(c)
    ensures Underscored([c] + s) == [c] + Underscored(s)
  {
    assert ([c] + s)[1..] == s;
  }

  /** The name given to the data handed to the enrichment steps:
      `<lower-cased name, white space runs as _>_data.<type or csv>`. */
  function GeneratedFileName(campaignName: string, datasetType: Option<string>): (r: string)
    ensures EndsWith(r, "_data." + (if datasetType.Some? && datasetType.value != [] then datasetType.value else "csv"))
  {
    var ext := if datasetType.Some? && datasetType.value != [] then datasetType.value else "csv";
    var tail := "_data." + ext;
    ConcatEnds(Underscored(ToLower(campaignName)), tail);
    Underscored(ToLower(campaignName)) + tail
  }

  /** The generated name has no white space in its stem and keeps a stem without white space, lower-cased;
      a run of white space between two parts of the lower-cased name becomes one underscore. */
  lemma GeneratedFileNameStem(campaignName: string, datasetType: Option<string>)
    ensures var stem := Underscored(ToLower(campaignName));
      && StartsWith(GeneratedFileName(campaignName, datasetType), stem)
      && (forall w, b ::
            (ToLower(campaignName) == w + b && w != [] && (forall k :: 0 <= k < |w| ==> IsSpace(w[k])) && (b == [] || !IsSpace(b[0])))
            ==> stem == "_" + Underscored(b))
      && (forall k :: 0 <= k < |stem| ==> !IsSpace(stem[k]))
      && ((forall k :: 0 <= k < |campaignName| ==> !IsSpace(campaignName[k])) ==> stem == ToLower(campaignName))
  {
    var lower := ToLower(campaignName);
    UnderscoredSpec(lower);
    LeadingRun(lower);
    if forall k :: 0 <= k < |campaignName| ==> !IsSpace(campaignName[k]) {
      LowerKeepsNoSpace(campaignName);
    }
  }

  /** Lower-casing adds no white space. */
  lemma LowerKeepsNoSpace(s: string)
    requires forall k :: 0 <= k < |s| ==> !IsSpace(s[k])
    ensures forall k :: 0 <= k < |ToLower(s)| ==> !IsSpace(ToLower(s)[k])
  {
    forall k | 0 <= k < |s| ensures !IsSpace(ToLower(s)[k]) {
      assert ToLower(s)[k] == LowerChar(s[k]);
    }
  }

  /** Proceeding needs the campaign, its first dataset id and at least one parsed row; the button is
      disabled exactly when one is missing. */
  predicate CanProceed(campaign: Option<CampaignResult>, rows: seq<Row>) {
    campaign.Some? && FirstDatasetId(campaign).Some? && rows != []
  }

  /** Handing the campaign to the enrichment steps: the store gets both ids, the campaign's name and
      description, the parsed rows with their first row's keys, and the generated file name. */
  method ProceedToEnrichment(store: Store, campaignId: string, campaign: Option<CampaignResult>,
                             ds: Option<Dataset>) returns (navigated: bool)
    modifies store
    ensures navigated <==> CanProceed(campaign, DetailsRows(ds))
    ensures !navigated ==> store.Snapshot() == old(store.Snapshot()) && store.stored == old(store.stored)
    ensures navigated ==>
              var rows := DetailsRows(ds);
              var c := campaign.value;
              && store.Snapshot() == old(store.Snapshot()).(
                   createdCampaignId := Some(campaignId), createdDatasetId := FirstDatasetId(campaign),
                   campaignInfo := CampaignInfo(c.name, c.description),
                   excelData := Some(rows), excelColumns := DetailsColumns(rows), uploadedData := Some(rows),
                   fileName := Some(GeneratedFileName(c.name, if ds.Some? then ds.value.datasetType else None)))
              && store.Saved()
  {
    var rows := DetailsRows(ds);
    var datasetId := FirstDatasetId(campaign);
    if campaign.None? || datasetId.None? || |rows| == 0 {
      return false;
    }
    var c := campaign.value;
    store.SetCreatedCampaign(campaignId, datasetId.value);
    store.SetCampaignInfo(CampaignInfo(c.name, c.description));
    store.SetExcelData(rows, DetailsColumns(rows));
    store.SetFileName(GeneratedFileName(c.name, if ds.Some? then ds.value.datasetType else None));
    return true;
  }
}
