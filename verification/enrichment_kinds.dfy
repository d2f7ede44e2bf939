/**
 * The enrichment options the application offers, named by their ids, and
 * what the pages and the configuration modal make of an id: its title, the
 * backend's name for it, and the model-and-prompt configuration an LLM
 * enrichment needs.
 */
module EnrichmentKinds {

  const DataClean := "data-clean"
  const JobTitleEnrichment := "job-title-enrichment"
  const DomainEnrichment := "domain-enrichment"
  const EmailDiscovery := "email-discovery"
  const ProductServiceDiscovery := "product-service-discovery"
  const GenerateUseCases := "generate-use-cases"
  const EmailGeneration := "email-generation"

  /** The model and prompt an LLM enrichment runs with. */
  datatype LlmConfig = LlmConfig(llmModel: string, prompt: string)

  /** The ids with a title of their own. */
  predicate HasTitle(id: string) {
    id in {JobTitleEnrichment, EmailDiscovery, ProductServiceDiscovery, GenerateUseCases, EmailGeneration, DomainEnrichment}
  }

  /** `titleMap[id] || id`. */
  function Title(id: string): (t: string)
    ensures !HasTitle(id) ==> t == id
  {
    if id == JobTitleEnrichment then "Job Title Enrichment"
    else if id == EmailDiscovery then "Email Discovery"
    else if id == ProductServiceDiscovery then "Product and Service Discovery"
    else if id == GenerateUseCases then "Generate Use Cases"
    else if id == EmailGeneration then "Email Generation"
    else if id == DomainEnrichment then "Domain Enrichment"
    else id
  }

  /** Titled ids get distinct titles, and no title is itself a titled id. */
  lemma TitleNamesOne(a: string, b: string)
    requires HasTitle(a)
    ensures !HasTitle(Title(a)) && Title(a) != a
    ensures HasTitle(b) && Title(a) == Title(b) ==> a == b
  {
  }

  /** The backend's enrichment names, as the configuration modal maps them (`mapping[id] || id`). */
  function ModalBackendType(id: string): (r: string)
    ensures !HasTitle(id) ==> r == id
  {
    if id == DomainEnrichment then "domain_enrichment"
    else if id == JobTitleEnrichment then "Normalizing_Job_Titles"
    else if id == EmailDiscovery then "email_generation"
    else if id == ProductServiceDiscovery then "company_analysis"
    else if id == GenerateUseCases then "use_case_generation"
    else if id == EmailGeneration then "email_generation"
    else id
  }

  /** The same mapping as the enrichments page sends with an LLM request, which lacks email generation. */
  function RequestBackendType(id: string): (r: string)
    ensures id == EmailGeneration ==> r == id
  {
    if id == EmailGeneration then id else ModalBackendType(id)
  }

  /** The two mappings agree on every id but email generation, and both send email discovery and
      email generation to the same backend name in the modal. */
  lemma BackendTypesAgree(id: string)
    ensures id != EmailGeneration <==> RequestBackendType(id) == ModalBackendType(id)
    ensures ModalBackendType(EmailDiscovery) == ModalBackendType(EmailGeneration)
  {
  }
}
