/**
 * The enrichments step: the user selects an enrichment, configures it, and
 * submits.  Data clean, email discovery and email generation have handlers
 * of their own and take priority in that order; every other selected
 * option runs as an LLM enrichment.  Each handler clears the page's error,
 * checks what it needs, sends its request, and then marks the option
 * completed or shows the backend's error.
 *
 * The server's answers are parameters of the handlers.  A handler records
 * completion by appending to the completed list as it was when the page
 * last rendered (`base`), as the source's closures do.
 */
module Enrichments {
  import opened JsText
  import opened Lists
  import opened Wrappers
  import opened EnrichmentKinds
  import opened CleanConfig

  /** The options processed by handlers of their own. */
  predicate Special(id: string) {
    id == DataClean || id == EmailDiscovery || id == EmailGeneration
  }

  /** What submitting does. */
  datatype Action = CleanData | DiscoverEmails | GenerateEmails | RunLlm(id: string)

  /** The non-special selected options, in selection order. */
  function LlmQueue(selected: seq<string>): (q: seq<string>)
    ensures |q| <= |selected|
  {
    if selected == [] then []
    else LlmQueue(selected[..|selected| - 1]) + (if Special(selected[|selected| - 1]) then [] else [selected[|selected| - 1]])
  }

  lemma {:induction false} LlmQueueOfPlain(selected: seq<string>)
    requires forall i :: 0 <= i < |selected| ==> !Special(selected[i])
    ensures LlmQueue(selected) == selected
  {
    if selected != [] {
      LlmQueueOfPlain(selected[..|selected| - 1]);
      assert selected[..|selected| - 1] + [selected[|selected| - 1]] == selected;
    }
  }

  /** One more selected option joins the queue unless it has a handler of its own. */
  lemma LlmQueueStep(selected: seq<string>, i: nat)
    requires i < |selected|
    ensures LlmQueue(selected[..i + 1]) == LlmQueue(selected[..i]) + (if Special(selected[i]) then [] else [selected[i]])
  {
    assert selected[..i + 1][..i] == selected[..i];
  }

  /** `handleProcessEnrichment`'s dispatch. */
  function ProcessPlan(selected: seq<string>): seq<Action> {
    if DataClean in selected then [CleanData]
    else if EmailDiscovery in selected then [DiscoverEmails]
    else if EmailGeneration in selected then [GenerateEmails]
    else Map(LlmQueue(selected), id => RunLlm(id))
  }

  /** Data clean wins over email discovery, which wins over email generation; otherwise every selected
      option runs as an LLM enrichment, once each, in selection order. */
  lemma ProcessPlanSpec(selected: seq<string>)
    ensures DataClean in selected ==> ProcessPlan(selected) == [CleanData]
    ensures DataClean !in selected && EmailDiscovery in selected ==> ProcessPlan(selected) == [DiscoverEmails]
    ensures DataClean !in selected && EmailDiscovery !in selected && EmailGeneration in selected ==>
              ProcessPlan(selected) == [GenerateEmails]
    ensures (forall i :: 0 <= i < |selected| ==> !Special(selected[i])) ==>
              |ProcessPlan(selected)| == |selected|
              && forall i :: 0 <= i < |selected| ==> ProcessPlan(selected)[i] == RunLlm(selected[i])
    ensures ProcessPlan(selected) == [] <==> selected == []
  {
    if forall i :: 0 <= i < |selected| ==> !Special(selected[i]) {
      LlmQueueOfPlain(selected);
    }
    if DataClean !in selected && EmailDiscovery !in selected && EmailGeneration !in selected {
      assert forall i :: 0 <= i < |selected| ==> !Special(selected[i]) by {
        forall i | 0 <= i < |selected| ensures !Special(selected[i]) {
          assert selected[i] in selected;
        }
      }
      LlmQueueOfPlain(selected);
    }
  }

  /** The name of what an action processes, as the submit button shows it. */
  function ActionTitle(a: Action): string {
    match a
    case CleanData => "Data Clean"
    case DiscoverEmails => Title(EmailDiscovery)
    case GenerateEmails => Title(EmailGeneration)
    case RunLlm(id) => Title(id)
  }

  /** `getSubmitButtonText`. */
  function SubmitText(pending: bool, selected: seq<string>): string {
    if pending then "Processing..."
    else if DataClean in selected then "Process Data Clean"
    else if EmailDiscovery in selected then "Process Email Discovery"
    else if EmailGeneration in selected then "Process Email Generation"
    else if |selected| > 0 then "Process " + Title(selected[0])
    else "Process Data"
  }

  /** The button names what submitting will process first. */
  lemma SubmitTextMatchesPlan(pending: bool, selected: seq<string>)
    ensures pending ==> SubmitText(pending, selected) == "Processing..."
    ensures !pending && selected != [] ==> SubmitText(pending, selected) == "Process " + ActionTitle(ProcessPlan(selected)[0])
    ensures !pending && selected == [] ==> SubmitText(pending, selected) == "Process Data"
  {
    SpecialButtonTexts();
    if !pending && selected != [] && DataClean !in selected && EmailDiscovery !in selected && EmailGeneration !in selected {
      forall i | 0 <= i < |selected| ensures !Special(selected[i]) {
        assert selected[i] in selected;
      }
      LlmQueueOfPlain(selected);
      assert ProcessPlan(selected)[0] == RunLlm(selected[0]);
    }
  }

  /** The button texts of the options with handlers of their own name those options' titles. */
  lemma SpecialButtonTexts()
    ensures "Process Data Clean" == "Process " + ActionTitle(CleanData)
    ensures "Process Email Discovery" == "Process " + ActionTitle(DiscoverEmails)
    ensures "Process Email Generation" == "Process " + ActionTitle(GenerateEmails)
  {
    CleanButtonText();
    DiscoveryButtonText();
    GenerationButtonText();
  }

  lemma CleanButtonText()
    ensures "Process Data Clean" == "Process " + ActionTitle(CleanData)
  {
  }

  lemma DiscoveryButtonText()
    ensures "Process Email Discovery" == "Process " + ActionTitle(DiscoverEmails)
  {
    assert Title(EmailDiscovery) == "Email Discovery";
  }

  lemma GenerationButtonText()
    ensures "Process Email Generation" == "Process " + ActionTitle(GenerateEmails)
  {
    assert Title(EmailGeneration) == "Email Generation";
  }

  // ---- Data clean ----

  /** One cleaning request entry, with the word list it removes. */
  datatype Fix =
    | RemoveSpecialCharacters(columns: seq<string>, characters: seq<string>)
    | RemoveCompanySuffix(columns: seq<string>, suffixes: seq<string>)
    | Deduplicate(columns: seq<string>)

  function FixKind(f: Fix): ColumnKind {
    match f
    case RemoveSpecialCharacters(_, _) => SpecialCharacters
    case RemoveCompanySuffix(_, _) => CompanySuffixes
    case Deduplicate(_) => Deduplication
  }

  /** An operation is sent when it is enabled and has columns. */
  predicate Active(c: CleanDataConfig, k: ColumnKind) {
    Enabled(c, k) && Columns(c, k) != []
  }

  function FixFor(c: CleanDataConfig, k: ColumnKind, specials: seq<string>, suffixes: seq<string>): Fix {
    match k
    case SpecialCharacters => RemoveSpecialCharacters(c.specialColumns, specials)
    case CompanySuffixes => RemoveCompanySuffix(c.suffixColumns, suffixes)
    case Deduplication => Deduplicate(c.dedupColumns)
  }

  /** The fixes of a data-clean request. */
  function Fixes(c: CleanDataConfig, specials: seq<string>, suffixes: seq<string>): seq<Fix> {
    (if Active(c, SpecialCharacters) then [FixFor(c, SpecialCharacters, specials, suffixes)] else [])
    + (if Active(c, CompanySuffixes) then [FixFor(c, CompanySuffixes, specials, suffixes)] else [])
    + (if Active(c, Deduplication) then [FixFor(c, Deduplication, specials, suffixes)] else [])
  }

  /** The operations in their fixed order. */
  const AllKinds := [SpecialCharacters, CompanySuffixes, Deduplication]

  /** One fix per active operation, in the order special characters, suffixes, de-duplication, each
      carrying that operation's columns. */
  lemma FixesSpec(c: CleanDataConfig, specials: seq<string>, suffixes: seq<string>)
    ensures var fs := Fixes(c, specials, suffixes);
      && Map(fs, FixKind) == Filter(AllKinds, k => Active(c, k))
      && (forall i :: 0 <= i < |fs| ==> fs[i].columns == Columns(c, FixKind(fs[i])) && fs[i].columns != [])
      && (fs == [] <==> forall k :: !Active(c, k))
  {
    FixesKinds(c, specials, suffixes);
    FixesColumns(c, specials, suffixes);
    FixesNone(c, specials, suffixes);
  }

  lemma FixesKinds(c: CleanDataConfig, specials: seq<string>, suffixes: seq<string>)
    ensures Map(Fixes(c, specials, suffixes), FixKind) == Filter(AllKinds, k => Active(c, k))
  {
    var p := k => Active(c, k);
    assert Filter(AllKinds, p) ==
      (if p(SpecialCharacters) then [SpecialCharacters] else []) +
      ((if p(CompanySuffixes) then [CompanySuffixes] else []) +
       ((if p(Deduplication) then [Deduplication] else []) + []));
  }

  lemma FixesColumns(c: CleanDataConfig, specials: seq<string>, suffixes: seq<string>)
    ensures var fs := Fixes(c, specials, suffixes);
      forall i :: 0 <= i < |fs| ==> fs[i].columns == Columns(c, FixKind(fs[i])) && fs[i].columns != []
  {
  }

  lemma FixesNone(c: CleanDataConfig, specials: seq<string>, suffixes: seq<string>)
    ensures Fixes(c, specials, suffixes) == [] <==> forall k :: !Active(c, k)
  {
    if Fixes(c, specials, suffixes) == [] {
      forall k ensures !Active(c, k) {
        match k
        case SpecialCharacters =>
        case CompanySuffixes =>
        case Deduplication =>
      }
    }
  }

  /** `fixes`, pushed one operation at a time. */
  method BuildFixes(c: CleanDataConfig, specials: seq<string>, suffixes: seq<string>) returns (fixes: seq<Fix>)
    ensures fixes == Fixes(c, specials, suffixes)
  {
    fixes := [];
    if c.enableSpecial && |c.specialColumns| > 0 {
      fixes := fixes + [RemoveSpecialCharacters(c.specialColumns, specials)];
    }
    if c.enableSuffixes && |c.suffixColumns| > 0 {
      fixes := fixes + [RemoveCompanySuffix(c.suffixColumns, suffixes)];
    }
    if c.enableDedup && |c.dedupColumns| > 0 {
      fixes := fixes + [Deduplicate(c.dedupColumns)];
    }
  }

  /** The submit button's test for data clean: some operation enabled and some columns selected. */
  predicate CleanGateOpen(clean: Option<CleanDataConfig>) {
    clean.Some?
    && (clean.value.enableSpecial || clean.value.enableSuffixes || clean.value.enableDedup)
    && (clean.value.specialColumns != [] || clean.value.suffixColumns != [] || clean.value.dedupColumns != [])
  }

  /** The button's test lets through every configuration that yields fixes, and some that yield none:
      an enabled operation and columns selected for a different one. */
  lemma CleanGateWeakerThanFixes(c: CleanDataConfig, specials: seq<string>, suffixes: seq<string>)
    ensures Fixes(c, specials, suffixes) != [] ==> CleanGateOpen(Some(c))
    ensures var odd := CleanDataConfig([], ["name"], [], true, false, false);
      CleanGateOpen(Some(odd)) && Fixes(odd, specials, suffixes) == []
  {
  }

  datatype CleanDataRequest = CleanDataRequest(campaignId: string, datasetId: string, fixes: seq<Fix>)

  /** The request a data-clean run sends: exactly when both ids are set, a configuration exists and it yields
      fixes, carrying the two ids and those fixes. */
  function CleanRequest(campaignId: Option<string>, datasetId: Option<string>, clean: Option<CleanDataConfig>,
                        specials: seq<string>, suffixes: seq<string>): (r: Option<CleanDataRequest>)
    ensures r.Some? <==> && campaignId.Some? && campaignId.value != [] && datasetId.Some? && datasetId.value != []
                         && clean.Some? && Fixes(clean.value, specials, suffixes) != []
    ensures r.Some? ==> && r.value.campaignId == campaignId.value && r.value.datasetId == datasetId.value
                        && r.value.fixes == Fixes(clean.value, specials, suffixes)
  {
    if campaignId.None? || campaignId.value == [] || datasetId.None? || datasetId.value == [] || clean.None? then None
    else
      var fixes := Fixes(clean.value, specials, suffixes);
      if fixes == [] then None else Some(CleanDataRequest(campaignId.value, datasetId.value, fixes))
  }

  // ---- Backend errors ----

  /** The parts of a failed request's error the page looks at. */
  datatype ErrorResponse = ErrorResponse(
    detailErrorMessage: Option<string>,
    errorMessage: Option<string>,
    detailStatusMessage: Option<string>,
    statusMessage: Option<string>,
    message: Option<string>,
    status: Option<int>,
    detailMissingColumns: Option<seq<string>>,
    missingColumns: Option<seq<string>>)

  predicate Truthy(s: Option<string>) {
    s.Some? && s.value != []
  }

  /** The first truthy candidate, or `fallback`. */
  function FirstTruthy(cands: seq<Option<string>>, fallback: string): string {
    if cands == [] then fallback
    else if Truthy(cands[0]) then cands[0].value
    else FirstTruthy(cands[1..], fallback)
  }

  lemma {:induction false} FirstTruthySpec(cands: seq<Option<string>>, fallback: string)
    ensures (forall i :: 0 <= i < |cands| ==> !Truthy(cands[i])) ==> FirstTruthy(cands, fallback) == fallback
    ensures forall i :: 0 <= i < |cands| && Truthy(cands[i]) && (forall j :: 0 <= j < i ==> !Truthy(cands[j])) ==>
              FirstTruthy(cands, fallback) == cands[i].value
  {
    if cands != [] {
      FirstTruthySpec(cands[1..], fallback);
      assert forall i :: 1 <= i < |cands| ==> cands[1..][i - 1] == cands[i];
    }
  }

  const UnexpectedError := "An unexpected error occurred"

  /** The places the message is looked for, in order. */
  function MessageCandidates(e: ErrorResponse): seq<Option<string>> {
    [e.detailErrorMessage, e.errorMessage, e.detailStatusMessage, e.statusMessage, e.message]
  }

  /** The backend's error message: the first present of the five places, else a default. */
  function BackendMessage(e: ErrorResponse): string {
    FirstTruthy(MessageCandidates(e), UnexpectedError)
  }

  /** The message is the first truthy candidate; the default only when there is none. */
  lemma BackendMessageSpec(e: ErrorResponse)
    ensures Truthy(e.detailErrorMessage) ==> BackendMessage(e) == e.detailErrorMessage.value
    ensures !Truthy(e.detailErrorMessage) && Truthy(e.errorMessage) ==> BackendMessage(e) == e.errorMessage.value
    ensures !Truthy(e.detailErrorMessage) && !Truthy(e.errorMessage) && Truthy(e.detailStatusMessage) ==>
              BackendMessage(e) == e.detailStatusMessage.value
    ensures (!Truthy(e.detailErrorMessage) && !Truthy(e.errorMessage) && !Truthy(e.detailStatusMessage)
             && Truthy(e.statusMessage)) ==> BackendMessage(e) == e.statusMessage.value
    ensures (!Truthy(e.detailErrorMessage) && !Truthy(e.errorMessage) && !Truthy(e.detailStatusMessage)
             && !Truthy(e.statusMessage) && Truthy(e.message)) ==> BackendMessage(e) == e.message.value
    ensures (forall i :: 0 <= i < 5 ==> !Truthy(MessageCandidates(e)[i])) ==> BackendMessage(e) == UnexpectedError
  {
    var cs := MessageCandidates(e);
    FirstTruthySpec(cs, UnexpectedError);
    assert cs[0] == e.detailErrorMessage && cs[1] == e.errorMessage && cs[2] == e.detailStatusMessage;
    assert cs[3] == e.statusMessage && cs[4] == e.message;
  }

  /** `config?.llmModel || 'selected model'`. */
  function ModelName(config: Option<LlmConfig>): string {
    if config.Some? && config.value.llmModel != [] then config.value.llmModel else "selected model"
  }

  /** The message mentions the model: `llm`, `model` or `unsupported` in any case. */
  predicate MentionsModel(msg: string) {
    var lower := ToLower(msg);
    Includes(lower, "llm") || Includes(lower, "model") || Includes(lower, "unsupported")
  }

  const LlmNotSupported := "LLM Model Not Supported"

  /** The title and message shown when an LLM enrichment fails. */
  function LlmFailure(id: string, e: ErrorResponse, config: Option<LlmConfig>): (string, string) {
    var msg := BackendMessage(e);
    var flagged := MentionsModel(msg);
    var title := if flagged then LlmNotSupported else Title(id) + " Failed";
    var message :=
      if flagged && !Includes(msg, "LLM") && !Includes(msg, "model") then
        "The selected LLM model \"" + ModelName(config) + "\" is not supported for this enrichment type. Please select a different model."
      else msg;
    (if e.status == Some(400) && !Includes(title, "LLM Model") then "Validation Error" else title, message)
  }

  lemma {:induction false} IncludesPrefix(s: string, t: string)
    requires StartsWith(s, t)
    ensures Includes(s, t)
  {
  }

  /** A message mentioning the model titles the error as an unsupported model, whatever the status; a
      400 otherwise becomes a validation error; the message is replaced only when it names neither
      `LLM` nor `model` verbatim. */
  lemma LlmFailureSpec(id: string, e: ErrorResponse, config: Option<LlmConfig>)
    ensures var (title, message) := LlmFailure(id, e, config);
      && (MentionsModel(BackendMessage(e)) ==> title == LlmNotSupported)
      && (!MentionsModel(BackendMessage(e)) && e.status == Some(400) && !Includes(Title(id) + " Failed", "LLM Model") ==>
            title == "Validation Error")
      && (!MentionsModel(BackendMessage(e)) && e.status != Some(400) ==> title == Title(id) + " Failed")
      && (message != BackendMessage(e) ==> MentionsModel(BackendMessage(e)))
      && (Includes(BackendMessage(e), "LLM") || Includes(BackendMessage(e), "model") ==> message == BackendMessage(e))
  {
    assert StartsWith(LlmNotSupported, "LLM Model");
    IncludesPrefix(LlmNotSupported, "LLM Model");
  }

  const MissingColumnsTitle := "Missing Required Columns"

  /** The title and message shown when email generation fails: missing columns, looked for under
      `detail` first, replace the message; a 400 becomes a validation error unless columns are missing. */
  function GenerationFailure(e: ErrorResponse): (r: (string, string))
    ensures e.detailMissingColumns.Some? ==>
              r == (MissingColumnsTitle, "Missing required columns: " + Join(e.detailMissingColumns.value, ", "))
    ensures e.detailMissingColumns.None? && e.missingColumns.Some? ==>
              r == (MissingColumnsTitle, "Missing required columns: " + Join(e.missingColumns.value, ", "))
    ensures e.detailMissingColumns.None? && e.missingColumns.None? ==>
              r == (if e.status == Some(400) then "Validation Error" else "Email Generation Failed", BackendMessage(e))
  {
    var cols := if e.detailMissingColumns.Some? then e.detailMissingColumns else e.missingColumns;
    var title := if cols.Some? then MissingColumnsTitle else "Email Generation Failed";
    var message := if cols.Some? then "Missing required columns: " + Join(cols.value, ", ") else BackendMessage(e);
    assert Includes(MissingColumnsTitle, MissingColumnsTitle) by {
      IncludesPrefix(MissingColumnsTitle, MissingColumnsTitle);
    }
    IncludesNoLonger("Email Generation Failed", MissingColumnsTitle);
    (if e.status == Some(400) && !Includes(title, MissingColumnsTitle) then "Validation Error" else title, message)
  }

  // ---- Handlers ----

  /** The server's answer to a data-clean request. */
  datatype CleanReply = Cleaned(s3Path: string) | CleanFailed(error: ErrorResponse)

  /** The server's answer to an email request; `refreshed` says whether reloading the dataset worked. */
  datatype EmailReply = Answered(statusCode: int, refreshed: bool) | EmailFailed(error: ErrorResponse)

  /** The server's answer to an LLM request. */
  datatype LlmReply = LlmDone | LlmFailed(error: ErrorResponse)

  datatype LlmRequest = LlmRequest(datasetId: string, enrichmentType: string, llm: string, prompt: string)

  /** What the handlers change: completion, the page's error, and the saved result paths. */
  datatype Status = Status(completed: seq<string>, errorTitle: string, errorMessage: string, paths: map<string, string>)

  function Cleared(s: Status): Status {
    s.(errorTitle := "", errorMessage := "")
  }

  /** The configuration an LLM option runs with. */
  function ConfigFor(id: string, domainConfig: Option<LlmConfig>, configs: map<string, LlmConfig>): Option<LlmConfig> {
    if id == DomainEnrichment then domainConfig
    else if id in configs then Some(configs[id])
    else None
  }

  predicate Present(id: Option<string>) {
    id.Some? && id.value != []
  }

  /** The request an LLM run sends: none without both ids or without a complete configuration. */
  function LlmRequestFor(campaignId: Option<string>, datasetId: Option<string>, config: Option<LlmConfig>, id: string)
    : (r: Option<LlmRequest>)
    ensures r.Some? <==> Present(campaignId) && Present(datasetId) && config.Some? && config.value.llmModel != [] && config.value.prompt != []
    ensures r.Some? ==> r.value == LlmRequest(datasetId.value, RequestBackendType(id), config.value.llmModel, config.value.prompt)
  {
    if !Present(campaignId) || !Present(datasetId) || config.None? || config.value.llmModel == [] || config.value.prompt == [] then None
    else Some(LlmRequest(datasetId.value, RequestBackendType(id), config.value.llmModel, config.value.prompt))
  }

  /** The effect of one LLM run on the status. */
  function LlmStep(s: Status, base: seq<string>, request: Option<LlmRequest>, id: string, config: Option<LlmConfig>,
                   reply: LlmReply): Status {
    if request.None? then Cleared(s)
    else match reply
      case LlmDone => Cleared(s).(completed := base + [id])
      case LlmFailed(e) => Cleared(s).(errorTitle := LlmFailure(id, e, config).0, errorMessage := LlmFailure(id, e, config).1)
  }

  /** LLM runs one after the other. */
  function LlmRuns(s: Status, base: seq<string>, campaignId: Option<string>, datasetId: Option<string>,
                   domainConfig: Option<LlmConfig>, configs: map<string, LlmConfig>, queue: seq<string>,
                   replies: string -> LlmReply): Status
  {
    if queue == [] then s
    else
      var id := queue[|queue| - 1];
      var config := ConfigFor(id, domainConfig, configs);
      LlmStep(LlmRuns(s, base, campaignId, datasetId, domainConfig, configs, queue[..|queue| - 1], replies),
              base, LlmRequestFor(campaignId, datasetId, config, id), id, config, replies(id))
  }

  /** One more LLM run after a queue of runs. */
  lemma LlmRunsAppend(s: Status, base: seq<string>, campaignId: Option<string>, datasetId: Option<string>,
                      domainConfig: Option<LlmConfig>, configs: map<string, LlmConfig>, queue: seq<string>, id: string,
                      replies: string -> LlmReply)
    ensures var config := ConfigFor(id, domainConfig, configs);
      LlmRuns(s, base, campaignId, datasetId, domainConfig, configs, queue + [id], replies) ==
      LlmStep(LlmRuns(s, base, campaignId, datasetId, domainConfig, configs, queue, replies),
              base, LlmRequestFor(campaignId, datasetId, config, id), id, config, replies(id))
  {
    assert (queue + [id])[..|queue|] == queue;
  }

  /** Because every run appends to the list as it was before the first run, two LLM runs that both
      succeed leave only the second one marked completed. */
  lemma LlmRunsKeepLastOnly(s: Status, campaignId: Option<string>, datasetId: Option<string>,
                            domainConfig: Option<LlmConfig>, configs: map<string, LlmConfig>, a: string, b: string,
                            replies: string -> LlmReply)
    requires LlmRequestFor(campaignId, datasetId, ConfigFor(a, domainConfig, configs), a).Some?
    requires LlmRequestFor(campaignId, datasetId, ConfigFor(b, domainConfig, configs), b).Some?
    requires replies(a) == LlmDone && replies(b) == LlmDone
    ensures LlmRuns(s, s.completed, campaignId, datasetId, domainConfig, configs, [a, b], replies).completed == s.completed + [b]
  {
    assert [a, b][..1] == [a];
    assert [a][..0] == [];
  }

  /** A single run's result. */
  lemma LlmRunsSingle(s: Status, campaignId: Option<string>, datasetId: Option<string>,
                      domainConfig: Option<LlmConfig>, configs: map<string, LlmConfig>, id: string,
                      replies: string -> LlmReply)
    ensures var config := ConfigFor(id, domainConfig, configs);
      var request := LlmRequestFor(campaignId, datasetId, config, id);
      var r := LlmRuns(s, s.completed, campaignId, datasetId, domainConfig, configs, [id], replies);
      && (request.Some? && replies(id) == LlmDone ==> r.completed == s.completed + [id] && r.errorTitle == "")
      && (request.None? ==> r == Cleared(s))
      && (request.Some? && replies(id).LlmFailed? ==>
            r.completed == s.completed && (r.errorTitle, r.errorMessage) == LlmFailure(id, replies(id).error, config))
  {
    assert [id][..0] == [];
  }

  /** The effect of a data-clean run on the status. */
  function CleanStep(s: Status, request: Option<CleanDataRequest>, reply: CleanReply): Status {
    if request.None? then Cleared(s)
    else match reply
      case Cleaned(path) => Cleared(s).(completed := s.completed + [DataClean], paths := s.paths[DataClean := path])
      case CleanFailed(e) => Cleared(s).(errorTitle := "Data Clean Failed", errorMessage := BackendMessage(e))
  }

  /** The effect of an email-discovery run: only a 200 answer completes it; any other answer leaves the
      status alone beyond clearing the error. */
  function DiscoveryStep(s: Status, datasetId: Option<string>, reply: EmailReply): Status {
    if !Present(datasetId) then Cleared(s)
    else match reply
      case Answered(code, _) => if code == 200 then Cleared(s).(completed := s.completed + [EmailDiscovery]) else Cleared(s)
      case EmailFailed(e) => Cleared(s).(errorTitle := "Email Discovery Failed", errorMessage := BackendMessage(e))
  }

  /** The email-generation prompt is configured. */
  predicate PromptSet(configs: map<string, LlmConfig>) {
    EmailGeneration in configs && configs[EmailGeneration].prompt != []
  }

  /** The effect of an email-generation run: completed only on a 200 answer after which the dataset reloads. */
  function GenerationStep(s: Status, datasetId: Option<string>, configs: map<string, LlmConfig>, reply: EmailReply): Status {
    if !Present(datasetId) || !PromptSet(configs) then Cleared(s)
    else match reply
      case Answered(code, refreshed) =>
        if code == 200 && refreshed then Cleared(s).(completed := s.completed + [EmailGeneration]) else Cleared(s)
      case EmailFailed(e) => Cleared(s).(errorTitle := GenerationFailure(e).0, errorMessage := GenerationFailure(e).1)
  }

  // ---- Submit gating ----

  /** An LLM option has a configuration: the domain one for domain enrichment, a stored one otherwise. */
  predicate HasConfig(id: string, domainConfig: Option<LlmConfig>, configs: map<string, LlmConfig>) {
    ConfigFor(id, domainConfig, configs).Some?
  }

  /** When the submit button is disabled, stated outright. */
  predicate SubmitDisabled(pending: bool, selected: seq<string>, completed: seq<string>, domainConfig: Option<LlmConfig>,
                           configs: map<string, LlmConfig>, clean: Option<CleanDataConfig>) {
    || pending
    || selected == []
    || (exists i :: 0 <= i < |selected| && selected[i] != DataClean && selected[i] in completed)
    || (EmailDiscovery !in selected &&
        if EmailGeneration in selected then !PromptSet(configs)
        else
          || (exists i :: 0 <= i < |selected| && !Special(selected[i]) && !HasConfig(selected[i], domainConfig, configs))
          || (DataClean in selected && !CleanGateOpen(clean)))
  }

  /** An enabled button means the first action submitting takes has what its handler checks for, apart
      from the ids and an incomplete LLM configuration. */
  lemma EnabledSubmitIsConfigured(pending: bool, selected: seq<string>, completed: seq<string>,
                                  domainConfig: Option<LlmConfig>, configs: map<string, LlmConfig>,
                                  clean: Option<CleanDataConfig>)
    requires !SubmitDisabled(pending, selected, completed, domainConfig, configs, clean)
    ensures selected != [] && !pending
    ensures ProcessPlan(selected) == [GenerateEmails] ==> PromptSet(configs)
    ensures ProcessPlan(selected) == [CleanData] && EmailDiscovery !in selected && EmailGeneration !in selected ==>
              CleanGateOpen(clean)
    ensures forall a :: a in ProcessPlan(selected) && a.RunLlm? ==> HasConfig(a.id, domainConfig, configs) && a.id !in completed
  {
    ProcessPlanSpec(selected);
    forall a | a in ProcessPlan(selected) && a.RunLlm?
      ensures HasConfig(a.id, domainConfig, configs) && a.id !in completed
    {
      var k :| 0 <= k < |ProcessPlan(selected)| && ProcessPlan(selected)[k] == a;
      assert a == RunLlm(selected[k]);
    }
  }

  // ---- The page ----

  /** What the handlers leave alone. */
  datatype Setup = Setup(selected: seq<string>, hidden: seq<string>, domainConfig: Option<LlmConfig>,
                         configs: map<string, LlmConfig>, modalOpen: bool, currentType: string)

  class Page {
    var selected: seq<string>
    var completed: seq<string>
    var hidden: seq<string>
    var domainConfig: Option<LlmConfig>
    var configs: map<string, LlmConfig>
    var modalOpen: bool
    var currentType: string
    var errorTitle: string
    var errorMessage: string
    var paths: map<string, string>

    function StatusOf(): Status
      reads this
    {
      Status(completed, errorTitle, errorMessage, paths)
    }

    function SetupOf(): Setup
      reads this
    {
      Setup(selected, hidden, domainConfig, configs, modalOpen, currentType)
    }

    constructor()
      ensures StatusOf() == Status([], "", "", map[]) && SetupOf() == Setup([], [], None, map[], false, "")
    {
      selected := [];
      completed := [];
      hidden := [];
      domainConfig := None;
      configs := map[];
      modalOpen := false;
      currentType := "";
      errorTitle := "";
      errorMessage := "";
      paths := map[];
    }

    /** The configuration the modal is opened with (`getCurrentConfig`). */
    function CurrentConfig(): Option<LlmConfig>
      reads this
    {
      ConfigFor(currentType, domainConfig, configs)
    }

    /** The completed options still listed: those not hidden. */
    function ShownCompleted(): seq<string>
      reads this
    {
      var h := hidden;
      Filter(completed, id => id !in h)
    }

    method OpenModal(enrichmentType: string)
      modifies this
      ensures SetupOf() == old(SetupOf()).(modalOpen := true, currentType := enrichmentType)
      ensures StatusOf() == old(StatusOf())
    {
      currentType := enrichmentType;
      modalOpen := true;
    }

    method CloseModal()
      modifies this
      ensures SetupOf() == old(SetupOf()).(modalOpen := false, currentType := "")
      ensures StatusOf() == old(StatusOf())
    {
      modalOpen := false;
      currentType := "";
    }

    /** Saving the modal stores the configuration for the type being configured, which is what the modal
        opens with next time, and closes the modal. */
    method SaveConfig(config: LlmConfig)
      modifies this
      ensures ConfigFor(old(currentType), domainConfig, configs) == Some(config)
      ensures forall t :: t != old(currentType) ==> ConfigFor(t, domainConfig, configs) == ConfigFor(t, old(domainConfig), old(configs))
      ensures !modalOpen && currentType == ""
      ensures selected == old(selected) && hidden == old(hidden) && StatusOf() == old(StatusOf())
    {
      if currentType == DomainEnrichment {
        domainConfig := Some(config);
      } else {
        configs := configs[currentType := config];
      }
      modalOpen := false;
      currentType := "";
    }

    /** Hiding a completed option only takes it off the list shown. */
    method HideCompleted(id: string)
      modifies this
      ensures SetupOf() == old(SetupOf()).(hidden := old(hidden) + [id])
      ensures StatusOf() == old(StatusOf())
      ensures id !in ShownCompleted()
      ensures forall x :: x in ShownCompleted() <==> x in old(ShownCompleted()) && x != id
    {
      var h := hidden;
      hidden := hidden + [id];
      var h' := hidden;
      FilterMembers(completed, x => x !in h');
      FilterMembers(completed, x => x !in h);
    }

    /** `isSubmitDisabled`, checking the selection with early returns. */
    method IsSubmitDisabled(pending: bool, clean: Option<CleanDataConfig>) returns (disabled: bool)
      ensures disabled == SubmitDisabled(pending, selected, completed, domainConfig, configs, clean)
    {
      if pending || |selected| == 0 {
        return true;
      }
      for i := 0 to |selected|
        invariant forall j :: 0 <= j < i ==> !(selected[j] != DataClean && selected[j] in completed)
      {
        if selected[i] != DataClean && selected[i] in completed {
          return true;
        }
      }
      if EmailDiscovery in selected {
        return false;
      }
      if EmailGeneration in selected {
        return !PromptSet(configs);
      }
      for i := 0 to |selected|
        invariant forall j :: 0 <= j < i ==> Special(selected[j]) || HasConfig(selected[j], domainConfig, configs)
      {
        if Special(selected[i]) {
          continue;
        }
        if selected[i] == DomainEnrichment {
          if domainConfig.None? {
            return true;
          }
        } else if selected[i] !in configs {
          return true;
        }
      }
      if DataClean in selected {
        return !CleanGateOpen(clean);
      }
      return false;
    }

    method RunDataClean(campaignId: Option<string>, datasetId: Option<string>, clean: Option<CleanDataConfig>,
                        specials: seq<string>, suffixes: seq<string>, reply: CleanReply)
      returns (request: Option<CleanDataRequest>)
      modifies this
      ensures request == CleanRequest(campaignId, datasetId, clean, specials, suffixes)
      ensures StatusOf() == CleanStep(old(StatusOf()), request, reply)
      ensures SetupOf() == old(SetupOf())
    {
      errorMessage := "";
      errorTitle := "";
      if !Present(campaignId) || !Present(datasetId) || clean.None? {
        return None;
      }
      var fixes := BuildFixes(clean.value, specials, suffixes);
      if |fixes| == 0 {
        return None;
      }
      request := Some(CleanDataRequest(campaignId.value, datasetId.value, fixes));
      match reply {
        case Cleaned(path) =>
          paths := paths[DataClean := path];
          completed := completed + [DataClean];
        case CleanFailed(e) =>
          errorTitle := "Data Clean Failed";
          errorMessage := BackendMessage(e);
      }
    }

    method RunEmailDiscovery(datasetId: Option<string>, reply: EmailReply) returns (requested: bool)
      modifies this
      ensures requested <==> Present(datasetId)
      ensures StatusOf() == DiscoveryStep(old(StatusOf()), datasetId, reply)
      ensures SetupOf() == old(SetupOf())
    {
      errorMessage := "";
      errorTitle := "";
      if !Present(datasetId) {
        return false;
      }
      requested := true;
      match reply {
        case Answered(code, _) =>
          if code == 200 {
            completed := completed + [EmailDiscovery];
          }
        case EmailFailed(e) =>
          errorTitle := "Email Discovery Failed";
          errorMessage := BackendMessage(e);
      }
    }

    method RunEmailGeneration(datasetId: Option<string>, reply: EmailReply) returns (requested: bool)
      modifies this
      ensures requested <==> Present(datasetId) && PromptSet(configs)
      ensures StatusOf() == GenerationStep(old(StatusOf()), datasetId, configs, reply)
      ensures SetupOf() == old(SetupOf())
    {
      errorMessage := "";
      errorTitle := "";
      if !Present(datasetId) || !PromptSet(configs) {
        return false;
      }
      requested := true;
      match reply {
        case Answered(code, refreshed) =>
          if code == 200 && refreshed {
            completed := completed + [EmailGeneration];
          }
        case EmailFailed(e) =>
          var (t, m) := GenerationFailure(e);
          errorTitle := t;
          errorMessage := m;
      }
    }

    /** One LLM run, recording completion on top of `base`. */
    method RunLlmEnrichment(base: seq<string>, campaignId: Option<string>, datasetId: Option<string>, id: string,
                            reply: LlmReply) returns (request: Option<LlmRequest>)
      modifies this
      ensures request == LlmRequestFor(campaignId, datasetId, ConfigFor(id, domainConfig, configs), id)
      ensures StatusOf() == LlmStep(old(StatusOf()), base, request, id, ConfigFor(id, domainConfig, configs), reply)
      ensures SetupOf() == old(SetupOf())
    {
      var config := ConfigFor(id, domainConfig, configs);
      errorMessage := "";
      errorTitle := "";
      request := LlmRequestFor(campaignId, datasetId, config, id);
      if request.None? {
        return;
      }
      match reply {
        case LlmDone =>
          completed := base + [id];
        case LlmFailed(e) =>
          var (t, m) := LlmFailure(id, e, config);
          errorTitle := t;
          errorMessage := m;
      }
    }

    /** The loop over the selection: every option without a handler of its own runs as an LLM
        enrichment, each recording completion against `base`. */
    method RunLlmQueue(base: seq<string>, campaignId: Option<string>, datasetId: Option<string>, queue: seq<string>,
                       llmReplies: string -> LlmReply)
      modifies this
      ensures SetupOf() == old(SetupOf())
      ensures StatusOf() == LlmRuns(old(StatusOf()), base, campaignId, datasetId, domainConfig, configs, LlmQueue(queue), llmReplies)
    {
      ghost var start := StatusOf();
      ghost var setup := SetupOf();
      for i := 0 to |queue|
        invariant SetupOf() == setup
        invariant StatusOf() == LlmRuns(start, base, campaignId, datasetId, setup.domainConfig, setup.configs, LlmQueue(queue[..i]), llmReplies)
      {
        var done := LlmQueue(queue[..i]);
        LlmQueueStep(queue, i);
        if !Special(queue[i]) {
          LlmRunsAppend(start, base, campaignId, datasetId, setup.domainConfig, setup.configs, done, queue[i], llmReplies);
          var _ := RunLlmEnrichment(base, campaignId, datasetId, queue[i], llmReplies(queue[i]));
        } else {
          assert done + [] == done;
        }
      }
      assert queue[..|queue|] == queue;
    }

    /** `handleProcessEnrichment`: the action the selection calls for, or every LLM run in turn. */
    method ProcessEnrichment(campaignId: Option<string>, datasetId: Option<string>, clean: Option<CleanDataConfig>,
                             specials: seq<string>, suffixes: seq<string>, cleanReply: CleanReply,
                             discoveryReply: EmailReply, generationReply: EmailReply, llmReplies: string -> LlmReply)
      modifies this
      ensures SetupOf() == old(SetupOf())
      ensures var s := Cleared(old(StatusOf()));
        StatusOf() ==
          if DataClean in old(selected) then CleanStep(s, CleanRequest(campaignId, datasetId, clean, specials, suffixes), cleanReply)
          else if EmailDiscovery in old(selected) then DiscoveryStep(s, datasetId, discoveryReply)
          else if EmailGeneration in old(selected) then GenerationStep(s, datasetId, configs, generationReply)
          else LlmRuns(s, old(completed), campaignId, datasetId, domainConfig, configs, LlmQueue(old(selected)), llmReplies)
    {
      errorMessage := "";
      errorTitle := "";
      if DataClean in selected {
        var _ := RunDataClean(campaignId, datasetId, clean, specials, suffixes, cleanReply);
      } else if EmailDiscovery in selected {
        var _ := RunEmailDiscovery(datasetId, discoveryReply);
      } else if EmailGeneration in selected {
        var _ := RunEmailGeneration(datasetId, generationReply);
      } else {
        RunLlmQueue(completed, campaignId, datasetId, selected, llmReplies);
      }
    }
  }
}
