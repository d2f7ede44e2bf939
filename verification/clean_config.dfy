/**
 * The data-clean configuration: three cleaning operations (special
 * characters, company suffixes, de-duplication), each with an enable flag
 * and the columns it applies to, and the two word lists the first two use.
 * The word-list edits are shared by the clean-data options and the
 * configuration panel.
 */
module CleanConfig {
  import opened JsText
  import opened Lists

  datatype ColumnKind = SpecialCharacters | CompanySuffixes | Deduplication

  datatype CleanDataConfig = CleanDataConfig(
    specialColumns: seq<string>,
    suffixColumns: seq<string>,
    dedupColumns: seq<string>,
    enableSpecial: bool,
    enableSuffixes: bool,
    enableDedup: bool)

  /** The configuration used while none is stored: no columns, every operation off. */
  const DefaultCleanConfig := CleanDataConfig([], [], [], false, false, false)

  function Columns(c: CleanDataConfig, k: ColumnKind): seq<string> {
    match k
    case SpecialCharacters => c.specialColumns
    case CompanySuffixes => c.suffixColumns
    case Deduplication => c.dedupColumns
  }

  function Enabled(c: CleanDataConfig, k: ColumnKind): bool {
    match k
    case SpecialCharacters => c.enableSpecial
    case CompanySuffixes => c.enableSuffixes
    case Deduplication => c.enableDedup
  }

  /** `{...selectedColumns, [k]: cols}`: one column list replaced, everything else kept. */
  function WithColumns(c: CleanDataConfig, k: ColumnKind, cols: seq<string>): (r: CleanDataConfig)
    ensures Columns(r, k) == cols
    ensures forall j :: j != k ==> Columns(r, j) == Columns(c, j)
    ensures forall j :: Enabled(r, j) == Enabled(c, j)
  {
    match k
    case SpecialCharacters => c.(specialColumns := cols)
    case CompanySuffixes => c.(suffixColumns := cols)
    case Deduplication => c.(dedupColumns := cols)
  }

  /** `{[flag]: b}`: one flag replaced, everything else kept. */
  function WithEnabled(c: CleanDataConfig, k: ColumnKind, b: bool): (r: CleanDataConfig)
    ensures Enabled(r, k) == b
    ensures forall j :: j != k ==> Enabled(r, j) == Enabled(c, j)
    ensures forall j :: Columns(r, j) == Columns(c, j)
  {
    match k
    case SpecialCharacters => c.(enableSpecial := b)
    case CompanySuffixes => c.(enableSuffixes := b)
    case Deduplication => c.(enableDedup := b)
  }

  /** The word lists the application starts with. */
  const DefaultSpecialCharacters: seq<string> :=
    ["!", "@", "#", "$", "%", "^", "&", "*", "(", ")", "-", "_", "=", "+"]
  const DefaultCompanySuffixes: seq<string> :=
    ["INC", "LLC", "CORP", "LTD", "CO", "COMPANY", "CORPORATION", "LIMITED"]

  /** The starting lists hold no duplicates, and the suffixes are upper-case. */
  lemma DefaultListsValid()
    ensures Distinct(DefaultSpecialCharacters) && Distinct(DefaultCompanySuffixes)
    ensures AllUpper(DefaultCompanySuffixes)
  {
    SpecialCharactersDistinct();
    SuffixesDistinct();
    SuffixesUpper();
  }

  lemma SpecialCharactersDistinct()
    ensures Distinct(DefaultSpecialCharacters)
  {
    var s := DefaultSpecialCharacters;
    forall i, j | 0 <= i < j < |s| ensures s[i] != s[j] {
      assert |s[i]| == 1 && |s[j]| == 1 && s[i][0] != s[j][0];
    }
  }

  lemma SuffixesDistinct()
    ensures Distinct(DefaultCompanySuffixes)
  {
    var s := DefaultCompanySuffixes;
    forall i, j | 0 <= i < j < |s| ensures s[i] != s[j] {
      assert |s[i]| != |s[j]| || s[i][0] != s[j][0] || s[i][1] != s[j][1];
    }
  }

  lemma SuffixesUpper()
    ensures AllUpper(DefaultCompanySuffixes)
  {
    var s := DefaultCompanySuffixes;
    forall i | 0 <= i < |s| ensures ToUpper(s[i]) == s[i] {
      NoLowerKept(s[i]);
    }
  }

  /** A word without lower-case ASCII letters is its own upper-case form. */
  lemma NoLowerKept(w: string)
    requires forall k :: 0 <= k < |w| ==> !('a' <= w[k] <= 'z')
    ensures ToUpper(w) == w
  {
    assert forall k :: 0 <= k < |w| ==> UpperChar(w[k]) == w[k];
  }

  /** Adding a special character: a non-empty entry not yet listed is appended. */
  function AddEntry(list: seq<string>, entry: string): (r: seq<string>)
    ensures entry != [] && entry !in list ==> r == list + [entry]
    ensures entry == [] || entry in list ==> r == list
  {
    if entry != [] && entry !in list then list + [entry] else list
  }

  /** Adding a suffix: a non-empty entry is upper-cased and appended unless the upper-cased form is listed. */
  function AddUpperEntry(list: seq<string>, entry: string): (r: seq<string>)
    ensures entry != [] && ToUpper(entry) !in list ==> r == list + [ToUpper(entry)]
    ensures entry == [] || ToUpper(entry) in list ==> r == list
  {
    if entry != [] && ToUpper(entry) !in list then list + [ToUpper(entry)] else list
  }

  predicate AllUpper(list: seq<string>) {
    forall i :: 0 <= i < |list| ==> ToUpper(list[i]) == list[i]
  }

  lemma {:induction false} ToUpperIdempotent(s: string)
    ensures ToUpper(ToUpper(s)) == ToUpper(s)
  {
    var u := ToUpper(s);
    forall k | 0 <= k < |s| ensures ToUpper(u)[k] == u[k] {
      assert UpperChar(UpperChar(s[k])) == UpperChar(s[k]);
    }
  }

  /** The word lists never gain a duplicate, and the suffix list stays upper-case. */
  lemma AddKeepsDistinct(list: seq<string>, entry: string)
    requires Distinct(list)
    ensures Distinct(AddEntry(list, entry)) && Distinct(AddUpperEntry(list, entry))
    ensures AllUpper(list) ==> AllUpper(AddUpperEntry(list, entry))
  {
    ToUpperIdempotent(entry);
  }

  /** Removing an entry just added gives the list back. */
  lemma AddThenRemove(list: seq<string>, entry: string)
    requires entry != [] && entry !in list
    ensures RemoveAll(AddEntry(list, entry), entry) == list
  {
    RemoveAllAppended(list, entry);
  }
}
