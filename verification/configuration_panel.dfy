/**
 * The configuration panel: a local copy of the processing configuration
 * whose word lists are edited in place and which is handed back whole on
 * save.  The edits are the ones the clean-data options make
 * (`CleanConfig.AddEntry`, `CleanConfig.AddUpperEntry`, `RemoveAll`).
 */
module ConfigurationPanel {
  import opened JsText
  import opened Lists
  import opened CleanConfig

  datatype PanelConfig = PanelConfig(specialCharacters: seq<string>, companySuffixes: seq<string>, columnsToDelete: seq<string>)

  class Panel {
    /** The configuration the panel was opened with. */
    const original: PanelConfig
    var localConfig: PanelConfig
    var newSpecialChar: string
    var newSuffix: string

    /** No edit reaches the list of columns to delete. */
    predicate Valid()
      reads this
    {
      localConfig.columnsToDelete == original.columnsToDelete
    }

    constructor(config: PanelConfig)
      ensures original == config && localConfig == config && newSpecialChar == "" && newSuffix == "" && Valid()
    {
      original := config;
      localConfig := config;
      newSpecialChar := "";
      newSuffix := "";
    }

    method AddSpecialCharacter()
      requires Valid()
      modifies this
      ensures Valid()
      ensures localConfig == old(localConfig).(specialCharacters := AddEntry(old(localConfig.specialCharacters), old(newSpecialChar)))
      ensures newSpecialChar == if old(newSpecialChar) != [] && old(newSpecialChar) !in old(localConfig.specialCharacters) then "" else old(newSpecialChar)
      ensures newSuffix == old(newSuffix)
    {
      if newSpecialChar != [] && newSpecialChar !in localConfig.specialCharacters {
        localConfig := localConfig.(specialCharacters := localConfig.specialCharacters + [newSpecialChar]);
        newSpecialChar := "";
      }
    }

    method RemoveSpecialCharacter(c: string)
      requires Valid()
      modifies this
      ensures Valid()
      ensures localConfig == old(localConfig).(specialCharacters := RemoveAll(old(localConfig.specialCharacters), c))
      ensures newSpecialChar == old(newSpecialChar) && newSuffix == old(newSuffix)
    {
      localConfig := localConfig.(specialCharacters := RemoveAll(localConfig.specialCharacters, c));
    }

    method AddSuffix()
      requires Valid()
      modifies this
      ensures Valid()
      ensures localConfig == old(localConfig).(companySuffixes := AddUpperEntry(old(localConfig.companySuffixes), old(newSuffix)))
      ensures newSuffix == if old(newSuffix) != [] && ToUpper(old(newSuffix)) !in old(localConfig.companySuffixes) then "" else old(newSuffix)
      ensures newSpecialChar == old(newSpecialChar)
    {
      if newSuffix != [] && ToUpper(newSuffix) !in localConfig.companySuffixes {
        localConfig := localConfig.(companySuffixes := localConfig.companySuffixes + [ToUpper(newSuffix)]);
        newSuffix := "";
      }
    }

    method RemoveSuffix(s: string)
      requires Valid()
      modifies this
      ensures Valid()
      ensures localConfig == old(localConfig).(companySuffixes := RemoveAll(old(localConfig.companySuffixes), s))
      ensures newSpecialChar == old(newSpecialChar) && newSuffix == old(newSuffix)
    {
      localConfig := localConfig.(companySuffixes := RemoveAll(localConfig.companySuffixes, s));
    }

    /** Saving hands over the edited configuration, whose columns to delete are the ones it was opened with. */
    method HandleSave() returns (saved: PanelConfig)
      requires Valid()
      ensures saved == localConfig
      ensures saved.columnsToDelete == original.columnsToDelete
    {
      saved := localConfig;
    }
  }
}
