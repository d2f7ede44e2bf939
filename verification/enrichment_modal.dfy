/**
 * The configuration modal of an enrichment: a model picked from the
 * backend's list and a prompt, prefilled with the backend's first default
 * prompt when nothing was configured before.  Email generation takes only a
 * prompt and is saved with the placeholder model `N/A`.
 */
module EnrichmentModal {
  import opened Wrappers
  import opened EnrichmentKinds
  import opened Enrichments

  const NoModel := "N/A"

  /** The modal waits for the model list (except for email generation) and the prompt list. */
  predicate Loading(enrichmentType: string, modelsLoading: bool, promptsLoading: bool) {
    (if enrichmentType == EmailGeneration then false else modelsLoading) || promptsLoading
  }

  /** The save button's `disabled`. */
  predicate SaveDisabled(enrichmentType: string, config: LlmConfig, loading: bool) {
    loading || (if enrichmentType == EmailGeneration then config.prompt == [] else config.llmModel == [] || config.prompt == [])
  }

  /** What saving hands to the page, if anything. */
  function SaveResult(enrichmentType: string, config: LlmConfig): (r: Option<LlmConfig>)
    ensures r.Some? <==> !SaveDisabled(enrichmentType, config, false)
    ensures r.Some? ==> r.value.prompt == config.prompt && r.value.llmModel != []
    ensures r.Some? && enrichmentType != EmailGeneration ==> r.value == config
    ensures r.Some? && enrichmentType == EmailGeneration ==> r.value.llmModel == NoModel
  {
    if enrichmentType == EmailGeneration then
      if config.prompt == [] then None else Some(config.(llmModel := NoModel))
    else if config.llmModel == [] || config.prompt == [] then None
    else Some(config)
  }

  /** A configuration the modal saves is one the page's handler runs with: email generation finds its
      prompt, and an LLM enrichment sends a request as soon as both ids are there. */
  lemma SavedConfigRuns(t: string, config: LlmConfig, domainConfig: Option<LlmConfig>, configs: map<string, LlmConfig>,
                        campaignId: string, datasetId: string)
    requires SaveResult(t, config).Some?
    requires campaignId != [] && datasetId != []
    ensures var saved := SaveResult(t, config).value;
      && (t == EmailGeneration ==> PromptSet(configs[t := saved]))
      && (t != EmailGeneration ==>
            var dc := if t == DomainEnrichment then Some(saved) else domainConfig;
            var cs := if t == DomainEnrichment then configs else configs[t := saved];
            LlmRequestFor(Some(campaignId), Some(datasetId), ConfigFor(t, dc, cs), t).Some?)
  {
  }

  class Modal {
    const enrichmentType: string
    const existing: Option<LlmConfig>
    var config: LlmConfig
    var editingPrompt: bool

    /** Opening: the existing configuration, or an empty one, and the prompt shown read-only. */
    constructor(t: string, existingConfig: Option<LlmConfig>)
      ensures enrichmentType == t && existing == existingConfig && !editingPrompt
      ensures config == existingConfig.GetOr(LlmConfig("", ""))
    {
      enrichmentType := t;
      existing := existingConfig;
      config := existingConfig.GetOr(LlmConfig("", ""));
      editingPrompt := false;
    }

    /** The default prompts arrive: the first one is filled in unless a configuration existed. */
    method PromptsLoaded(prompts: seq<string>)
      modifies this
      ensures |prompts| > 0 && existing.None? ==>
                config.prompt == prompts[0]
                && config.llmModel == (if enrichmentType == EmailGeneration then NoModel else old(config.llmModel))
      ensures |prompts| == 0 || existing.Some? ==> config == old(config)
      ensures editingPrompt == old(editingPrompt)
    {
      if |prompts| > 0 && existing.None? {
        config := config.(prompt := prompts[0], llmModel := if enrichmentType == EmailGeneration then NoModel else config.llmModel);
      }
    }

    method SelectModel(model: string)
      modifies this
      ensures config == old(config).(llmModel := model) && editingPrompt == old(editingPrompt)
    {
      config := config.(llmModel := model);
    }

    /** Typing in the prompt replaces it and switches to editing. */
    method PromptEdit(value: string)
      modifies this
      ensures config == old(config).(prompt := value) && editingPrompt
    {
      config := config.(prompt := value);
      editingPrompt := true;
    }

    method ToggleEditing()
      modifies this
      ensures editingPrompt == !old(editingPrompt) && config == old(config)
    {
      editingPrompt := !editingPrompt;
    }

    /** `handleSave`: the configuration handed to the page, or none when something required is missing. */
    method Save() returns (saved: Option<LlmConfig>)
      ensures saved == SaveResult(enrichmentType, config)
    {
      if enrichmentType == EmailGeneration {
        if config.prompt == [] {
          return None;
        }
        return Some(config.(llmModel := NoModel));
      }
      if config.llmModel == [] || config.prompt == [] {
        return None;
      }
      return Some(config);
    }
  }
}
