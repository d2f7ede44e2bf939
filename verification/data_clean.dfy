/**
 * The clean-data options: the special-character and company-suffix word
 * lists, and per cleaning operation an enable flag and a column selection
 * searched through a dropdown.  The handlers rewrite the processing
 * configuration; while none is stored the default configuration stands in.
 */
module DataClean {
  import opened JsText
  import opened Lists
  import opened Wrappers
  import opened CleanConfig

  /** `filterColumns`: an empty search keeps every column, otherwise a case-insensitive substring match. */
  function FilterColumns(columns: seq<string>, search: string): seq<string> {
    if search == [] then columns else Filter(columns, c => Includes(ToLower(c), ToLower(search)))
  }

  /** The columns kept are exactly those whose name contains the search, ignoring case, in their order. */
  lemma FilterColumnsSpec(columns: seq<string>, search: string)
    ensures search == [] ==> FilterColumns(columns, search) == columns
    ensures search != [] ==>
              forall c :: c in FilterColumns(columns, search) <==> c in columns && Includes(ToLower(c), ToLower(search))
    ensures IsSubsequence(FilterColumns(columns, search), columns)
  {
    if search == [] {
      SubsequenceRefl(columns);
    } else {
      FilterMembers(columns, c => Includes(ToLower(c), ToLower(search)));
      FilterSubsequence(columns, c => Includes(ToLower(c), ToLower(search)));
    }
  }

  /** The label of a column dropdown. */
  function ColumnDisplayText(columns: seq<string>): (r: string)
    ensures |columns| == 0 ==> r == "Select columns"
    ensures |columns| == 1 ==> r == columns[0]
    ensures |columns| >= 2 ==> EndsWith(r, " columns selected") && StartsWith(r, NatText(|columns|))
  {
    if |columns| == 0 then "Select columns"
    else if |columns| == 1 then columns[0]
    else
      var r := NatText(|columns|) + " columns selected";
      assert r[|r| - |" columns selected"|..] == " columns selected";
      r
  }

  /** The processing configuration as the clean-data options edit it, with the two text inputs. */
  class CleanOptions {
    var specialCharacters: seq<string>
    var companySuffixes: seq<string>
    var cleanDataConfig: Option<CleanDataConfig>
    var newSpecialChar: string
    var newSuffix: string

    /** The word lists hold no duplicates, and the suffixes are upper-case. */
    predicate Valid()
      reads this
    {
      Distinct(specialCharacters) && Distinct(companySuffixes) && AllUpper(companySuffixes)
    }

    /** The configuration the handlers start from: the stored one, or the default. */
    function Effective(): CleanDataConfig
      reads this
    {
      cleanDataConfig.GetOr(DefaultCleanConfig)
    }

    constructor(specials: seq<string>, suffixes: seq<string>)
      requires Distinct(specials) && Distinct(suffixes) && AllUpper(suffixes)
      ensures specialCharacters == specials && companySuffixes == suffixes
      ensures cleanDataConfig == None && newSpecialChar == "" && newSuffix == ""
      ensures Valid() && Effective() == DefaultCleanConfig
    {
      specialCharacters := specials;
      companySuffixes := suffixes;
      cleanDataConfig := None;
      newSpecialChar := "";
      newSuffix := "";
    }

    /** The typed character is added when it is new, and then the input is cleared. */
    method AddSpecialCharacter()
      requires Valid()
      modifies this
      ensures Valid()
      ensures specialCharacters == AddEntry(old(specialCharacters), old(newSpecialChar))
      ensures newSpecialChar == if old(newSpecialChar) != [] && old(newSpecialChar) !in old(specialCharacters) then "" else old(newSpecialChar)
      ensures companySuffixes == old(companySuffixes) && cleanDataConfig == old(cleanDataConfig) && newSuffix == old(newSuffix)
    {
      AddKeepsDistinct(specialCharacters, newSpecialChar);
      if newSpecialChar != [] && newSpecialChar !in specialCharacters {
        specialCharacters := specialCharacters + [newSpecialChar];
        newSpecialChar := "";
      }
    }

    method RemoveSpecialCharacter(c: string)
      requires Valid()
      modifies this
      ensures Valid()
      ensures specialCharacters == RemoveAll(old(specialCharacters), c)
      ensures companySuffixes == old(companySuffixes) && cleanDataConfig == old(cleanDataConfig)
      ensures newSpecialChar == old(newSpecialChar) && newSuffix == old(newSuffix)
    {
      RemoveKeepsDistinct(specialCharacters, c);
      specialCharacters := RemoveAll(specialCharacters, c);
    }

    /** The typed suffix is added upper-cased when that form is new, and then the input is cleared. */
    method AddSuffix()
      requires Valid()
      modifies this
      ensures Valid()
      ensures companySuffixes == AddUpperEntry(old(companySuffixes), old(newSuffix))
      ensures newSuffix == if old(newSuffix) != [] && ToUpper(old(newSuffix)) !in old(companySuffixes) then "" else old(newSuffix)
      ensures specialCharacters == old(specialCharacters) && cleanDataConfig == old(cleanDataConfig)
      ensures newSpecialChar == old(newSpecialChar)
    {
      AddKeepsDistinct(companySuffixes, newSuffix);
      if newSuffix != [] && ToUpper(newSuffix) !in companySuffixes {
        companySuffixes := companySuffixes + [ToUpper(newSuffix)];
        newSuffix := "";
      }
    }

    method RemoveSuffix(s: string)
      requires Valid()
      modifies this
      ensures Valid()
      ensures companySuffixes == RemoveAll(old(companySuffixes), s)
      ensures specialCharacters == old(specialCharacters) && cleanDataConfig == old(cleanDataConfig)
      ensures newSpecialChar == old(newSpecialChar) && newSuffix == old(newSuffix)
    {
      RemoveKeepsDistinct(companySuffixes, s);
      companySuffixes := RemoveAll(companySuffixes, s);
    }

    /** A column is toggled in one operation's selection; the other selections and the flags are kept. */
    method ColumnToggle(k: ColumnKind, column: string)
      modifies this
      ensures cleanDataConfig.Some?
      ensures Columns(Effective(), k) == Toggle(Columns(old(Effective()), k), column)
      ensures forall j :: j != k ==> Columns(Effective(), j) == Columns(old(Effective()), j)
      ensures forall j :: Enabled(Effective(), j) == Enabled(old(Effective()), j)
      ensures specialCharacters == old(specialCharacters) && companySuffixes == old(companySuffixes)
      ensures newSpecialChar == old(newSpecialChar) && newSuffix == old(newSuffix)
    {
      var c := Effective();
      cleanDataConfig := Some(WithColumns(c, k, Toggle(Columns(c, k), column)));
    }

    /** One operation's flag is negated; the other flags and every selection are kept. */
    method EnableToggle(k: ColumnKind)
      modifies this
      ensures cleanDataConfig.Some?
      ensures Enabled(Effective(), k) == !Enabled(old(Effective()), k)
      ensures forall j :: j != k ==> Enabled(Effective(), j) == Enabled(old(Effective()), j)
      ensures forall j :: Columns(Effective(), j) == Columns(old(Effective()), j)
      ensures specialCharacters == old(specialCharacters) && companySuffixes == old(companySuffixes)
      ensures newSpecialChar == old(newSpecialChar) && newSuffix == old(newSuffix)
    {
      var c := Effective();
      cleanDataConfig := Some(WithEnabled(c, k, !Enabled(c, k)));
    }
  }

  /** Removing keeps a list free of duplicates and upper-case. */
  lemma RemoveKeepsDistinct(list: seq<string>, x: string)
    requires Distinct(list)
    ensures Distinct(RemoveAll(list, x))
    ensures AllUpper(list) ==> AllUpper(RemoveAll(list, x))
  {
    RemoveAllFilters(list, x);
  }

  lemma {:induction false} RemoveAllFilters(list: seq<string>, x: string)
    requires Distinct(list)
    ensures Distinct(RemoveAll(list, x))
  {
    if list != [] {
      RemoveAllFilters(list[1..], x);
      assert list[0] !in list[1..];
    }
  }
}
