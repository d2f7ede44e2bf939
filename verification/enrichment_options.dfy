/**
 * The list of enrichment options on the enrichments page.  Selection is
 * single: choosing an option replaces the selection, and while one option
 * is selected the others do not respond.  The selection and the completed
 * list belong to the page; the panel keeps which options are expanded and
 * the completed list it saw last, to notice new completions.
 */
module EnrichmentOptions {
  import opened Lists
  import opened EnrichmentKinds
  import opened Enrichments

  /** The options offered, in display order. */
  const AllOptions: seq<string> :=
    [DataClean, JobTitleEnrichment, DomainEnrichment, EmailDiscovery, ProductServiceDiscovery, GenerateUseCases, EmailGeneration]

  /** Choosing these opens the configuration modal. */
  predicate OpensModal(id: string) {
    id == DomainEnrichment || id in [JobTitleEnrichment, ProductServiceDiscovery, GenerateUseCases, EmailGeneration]
  }

  /** Among the options offered, the modal opens exactly for those whose processing needs a model or a
      prompt: every LLM enrichment, and email generation. */
  lemma ModalOpensForConfigurable(id: string)
    requires id in AllOptions
    ensures OpensModal(id) <==> !Special(id) || id == EmailGeneration
  {
  }

  /** The selection after an option is toggled. */
  function SelectionAfter(selected: seq<string>, id: string): (r: seq<string>)
    ensures id in r <==> id !in selected
    ensures |selected| <= 1 ==> |r| <= 1
    ensures id in selected ==> forall x :: x in r <==> x in selected && x != id
  {
    if id in selected then RemoveAll(selected, id) else [id]
  }

  /** The expanded options after an option is toggled. */
  function ExpandedAfter(selected: seq<string>, expanded: seq<string>, id: string): seq<string> {
    if id in selected then RemoveAll(expanded, id) else [id]
  }

  /** `hasOtherSelection`: an option is locked while a different one is selected. */
  predicate Locked(selected: seq<string>, id: string) {
    |selected| > 0 && id !in selected
  }

  /** Under the lock-out, a click either deselects the one selected option or selects into an empty
      selection. */
  lemma UnlockedClick(selected: seq<string>, id: string)
    requires |selected| <= 1 && !Locked(selected, id)
    ensures selected == [id] ==> SelectionAfter(selected, id) == []
    ensures selected == [] ==> SelectionAfter(selected, id) == [id]
    ensures selected == [id] || selected == []
  {
    if |selected| == 1 {
      assert selected[0] == id;
      assert SelectionAfter(selected, id) == RemoveAll(selected[1..], id);
    }
  }

  /** A selection of at most one option leaves at most one LLM run per submit. */
  lemma SingleSelectionSingleRun(selected: seq<string>)
    requires |selected| <= 1
    ensures |LlmQueue(selected)| <= 1
  {
  }

  class OptionsPanel {
    const page: Page
    var expanded: seq<string>
    var prevCompleted: seq<string>

    /** Selection is single. */
    predicate Valid()
      reads this, page
    {
      |page.selected| <= 1
    }

    constructor(p: Page)
      requires |p.selected| <= 1
      ensures page == p && expanded == [] && prevCompleted == [] && Valid()
    {
      page := p;
      expanded := [];
      prevCompleted := [];
    }

    /** `handleOptionToggle`: deselect, or select alone and open the modal the option needs. */
    method OptionToggle(id: string)
      requires Valid()
      modifies this, page
      ensures Valid()
      ensures page.selected == SelectionAfter(old(page.selected), id)
      ensures expanded == ExpandedAfter(old(page.selected), old(expanded), id)
      ensures id !in old(page.selected) && OpensModal(id) ==> page.modalOpen && page.currentType == id
      ensures id in old(page.selected) || !OpensModal(id) ==>
                page.modalOpen == old(page.modalOpen) && page.currentType == old(page.currentType)
      ensures page.StatusOf() == old(page.StatusOf()) && prevCompleted == old(prevCompleted)
      ensures page.hidden == old(page.hidden) && page.domainConfig == old(page.domainConfig) && page.configs == old(page.configs)
    {
      if id in page.selected {
        page.selected := RemoveAll(page.selected, id);
        expanded := RemoveAll(expanded, id);
      } else {
        page.selected := [id];
        expanded := [id];
        if id == DomainEnrichment {
          page.OpenModal(DomainEnrichment);
        } else if id in [JobTitleEnrichment, ProductServiceDiscovery, GenerateUseCases, EmailGeneration] {
          page.OpenModal(id);
        }
      }
    }

    /** A click on an option's card or checkbox, ignored while another option is selected. */
    method Click(id: string) returns (toggled: bool)
      requires Valid()
      modifies this, page
      ensures Valid()
      ensures toggled <==> !Locked(old(page.selected), id)
      ensures !toggled ==> page.SetupOf() == old(page.SetupOf()) && expanded == old(expanded)
      ensures toggled ==> page.selected == SelectionAfter(old(page.selected), id)
                          && expanded == ExpandedAfter(old(page.selected), old(expanded), id)
      ensures page.StatusOf() == old(page.StatusOf()) && prevCompleted == old(prevCompleted)
    {
      if Locked(page.selected, id) {
        return false;
      }
      OptionToggle(id);
      return true;
    }

    /** `toggleExpanded`. */
    method ToggleExpanded(id: string)
      modifies this
      ensures expanded == Toggle(old(expanded), id)
      ensures id in expanded <==> id !in old(expanded)
      ensures prevCompleted == old(prevCompleted)
    {
      expanded := Toggle(expanded, id);
    }

    /** `handleResetCompleted`: the option is no longer completed; the others stay. */
    method ResetCompleted(id: string)
      modifies page
      ensures page.completed == RemoveAll(old(page.completed), id)
      ensures forall x :: x in page.completed <==> x in old(page.completed) && x != id
      ensures page.SetupOf() == old(page.SetupOf())
    {
      page.completed := RemoveAll(page.completed, id);
    }

    /** `handleEditEnrichmentConfig`. */
    method EditEnrichmentConfig(id: string)
      modifies page
      ensures page.modalOpen && page.currentType == id
      ensures page.StatusOf() == old(page.StatusOf()) && page.selected == old(page.selected)
    {
      page.OpenModal(id);
    }

    /** The effect run when the completed list changes: a clear is scheduled exactly when some option
        is completed that was not before; the list is remembered either way. */
    method CompletedChanged() returns (clearScheduled: bool)
      modifies this
      ensures clearScheduled <==> exists x :: x in page.completed && x !in old(prevCompleted)
      ensures prevCompleted == page.completed && expanded == old(expanded)
    {
      var prev := prevCompleted;
      var newly := Filter(page.completed, x => x !in prev);
      FilterMembers(page.completed, x => x !in prev);
      clearScheduled := |newly| > 0;
      if clearScheduled {
        assert newly[0] in newly;
      }
      prevCompleted := page.completed;
    }

    /** The scheduled clear: nothing selected, nothing expanded. */
    method ClearAfterCompletion()
      modifies this, page
      ensures Valid()
      ensures page.selected == [] && expanded == []
      ensures page.StatusOf() == old(page.StatusOf()) && prevCompleted == old(prevCompleted)
      ensures page.SetupOf() == old(page.SetupOf()).(selected := [])
    {
      page.selected := [];
      expanded := [];
    }
  }
}
