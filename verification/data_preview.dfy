/**
 * The data preview step: which rows and columns it shows, the
 * comma-separated "columns to delete" text kept in the campaign store, the
 * column chips that add or remove a name from that text, and the step's
 * "next" action, which asks the server to drop the listed columns before
 * moving on.
 *
 * Its parse effect is the dataset preview's (`DatasetPreview.PreviewState`).
 */
module DataPreview {
  import opened JsText
  import opened Lists
  import opened Wrappers
  import opened Tabular
  import opened DatasetPreview
  import opened CampaignStore

  predicate NonEmpty(s: string) {
    s != []
  }

  // ------------------------------------------------------------ columns

  /** `cleanColumns`: trimmed, the empty names dropped, then duplicates dropped (first one kept). */
  function CleanColumns(cols: seq<string>): seq<string> {
    Dedup(Filter(Map(cols, Trim), NonEmpty))
  }

  /** The cleaned columns are distinct, non-empty and trimmed; they are exactly the non-empty trims of
      the input, listed in the order their first occurrence appears. */
  lemma {:induction false} CleanColumnsSpec(cols: seq<string>)
    ensures Distinct(CleanColumns(cols))
    ensures forall x :: x in CleanColumns(cols) <==> x != [] && exists i :: 0 <= i < |cols| && Trim(cols[i]) == x
    ensures forall k :: 0 <= k < |CleanColumns(cols)| ==> Trimmed(CleanColumns(cols)[k])
    ensures InFirstOccurrenceOrder(CleanColumns(cols), Filter(Map(cols, Trim), NonEmpty))
  {
    DedupDistinct(Filter(Map(cols, Trim), NonEmpty));
    DedupOrder(Filter(Map(cols, Trim), NonEmpty));
    CleanColumnsMembers(cols);
    CleanColumnsTrimmed(cols);
  }

  lemma CleanColumnsMembers(cols: seq<string>)
    ensures forall x :: x in CleanColumns(cols) <==> x != [] && exists i :: 0 <= i < |cols| && Trim(cols[i]) == x
  {
    var trimmed := Map(cols, Trim);
    var kept := Filter(trimmed, NonEmpty);
    var clean := Dedup(kept);
    assert CleanColumns(cols) == clean;
    DedupMembers(kept);
    FilterMembers(trimmed, NonEmpty);
    TrimmedMembers(cols);
    forall x
      ensures x in clean <==> x != [] && exists i :: 0 <= i < |cols| && Trim(cols[i]) == x
    {
      assert x in clean <==> x in kept;
      assert x in kept <==> x in trimmed && NonEmpty(x);
    }
  }

  lemma CleanColumnsTrimmed(cols: seq<string>)
    ensures forall k :: 0 <= k < |CleanColumns(cols)| ==> Trimmed(CleanColumns(cols)[k])
  {
    var clean := CleanColumns(cols);
    CleanColumnsMembers(cols);
    forall k | 0 <= k < |clean|
      ensures Trimmed(clean[k])
    {
      assert clean[k] in clean;
      var i :| 0 <= i < |cols| && Trim(cols[i]) == clean[k];
      TrimSpec(cols[i]);
    }
  }

  /** The trims of the columns are the values `Trim(cols[i])`. */
  lemma TrimmedMembers(cols: seq<string>)
    ensures forall x :: x in Map(cols, Trim) <==> exists i :: 0 <= i < |cols| && Trim(cols[i]) == x
  {
    var trimmed := Map(cols, Trim);
    forall x | x in trimmed
      ensures exists i :: 0 <= i < |cols| && Trim(cols[i]) == x
    {
      var i :| 0 <= i < |trimmed| && trimmed[i] == x;
      assert Trim(cols[i]) == x;
    }
    forall x | exists i :: 0 <= i < |cols| && Trim(cols[i]) == x
      ensures x in trimmed
    {
      var i :| 0 <= i < |cols| && Trim(cols[i]) == x;
      assert trimmed[i] == x;
    }
  }

  /** Cleaning a clean list changes nothing. */
  lemma {:induction false} CleanColumnsIdempotent(cols: seq<string>)
    ensures CleanColumns(CleanColumns(cols)) == CleanColumns(cols)
  {
    var c := CleanColumns(cols);
    CleanColumnsSpec(cols);
    forall k | 0 <= k < |c|
      ensures Trim(c[k]) == c[k] && c[k] != []
    {
      assert c[k] in c;
      TrimOfTrimmed(c[k]);
    }
    MapIdentity(c);
    KeepAllNonEmpty(c);
    DedupOfDistinct(c);
  }

  lemma {:induction false} MapIdentity(c: seq<string>)
    requires forall k :: 0 <= k < |c| ==> Trim(c[k]) == c[k]
    ensures Map(c, Trim) == c
  {
  }

  lemma {:induction false} KeepAllNonEmpty(c: seq<string>)
    requires forall k :: 0 <= k < |c| ==> c[k] != []
    ensures Filter(c, NonEmpty) == c
  {
    if c != [] {
      KeepAllNonEmpty(c[1..]);
    }
  }

  /** The raw column list, from the first source that applies: the parsed columns when there are any,
      the server's column list whenever it came back (even empty), the store's columns when there are
      any, else the first row's keys. */
  function RawColumns(parsedColumns: seq<string>, serverColumns: Option<seq<string>>,
                      excelColumns: seq<string>, actualData: seq<Row>): (r: seq<string>)
    ensures parsedColumns != [] ==> r == parsedColumns
    ensures parsedColumns == [] && serverColumns.Some? ==> r == serverColumns.value
    ensures parsedColumns == [] && serverColumns.None? && excelColumns != [] ==> r == excelColumns
    ensures parsedColumns == [] && serverColumns.None? && excelColumns == [] ==> r == DetailsColumns(actualData)
  {
    if |parsedColumns| > 0 then parsedColumns
    else if serverColumns.Some? then serverColumns.value
    else if |excelColumns| > 0 then excelColumns
    else if |actualData| > 0 then actualData[0].keys
    else []
  }

  /** The columns the page works with. */
  function ActualColumns(parsedColumns: seq<string>, serverColumns: Option<seq<string>>,
                         excelColumns: seq<string>, actualData: seq<Row>): seq<string> {
    CleanColumns(RawColumns(parsedColumns, serverColumns, excelColumns, actualData))
  }

  /** An empty column list from the server hides the store's columns and the rows' keys. */
  lemma EmptyServerListWins(serverColumns: Option<seq<string>>, excelColumns: seq<string>, actualData: seq<Row>)
    requires serverColumns == Some([])
    ensures ActualColumns([], serverColumns, excelColumns, actualData) == []
  {
  }

  /** The rows the page works with: the parsed rows when there are any, else the store's rows whenever
      they are set (even empty), else the rows passed in, else none. */
  function ActualRows(parsedData: seq<Row>, excelData: Option<seq<Row>>, data: Option<seq<Row>>): (r: seq<Row>)
    ensures parsedData != [] ==> r == parsedData
    ensures parsedData == [] && excelData.Some? ==> r == excelData.value
    ensures parsedData == [] && excelData.None? ==> r == data.GetOr([])
  {
    if |parsedData| > 0 then parsedData
    else if excelData.Some? then excelData.value
    else data.GetOr([])
  }

  /** The rows of the table: the first ten unless all are asked for. */
  function DisplayRows(rows: seq<Row>, showAll: bool): (r: seq<Row>)
    ensures showAll ==> r == rows
    ensures !showAll ==> |r| == Min(|rows|, 10) && r == rows[..|r|]
  {
    Shown(rows, showAll, 10)
  }

  // -------------------------------------------------------- delete list

  /** The names in the "columns to delete" text: split at commas, trimmed, empty pieces dropped. */
  function DeleteList(text: string): seq<string> {
    Filter(Map(Split(text, ','), Trim), NonEmpty)
  }

  /** A name the delete-list text can hold and give back. */
  predicate Listable(x: string) {
    x != [] && Trimmed(x) && ',' !in x
  }

  /** Every name read from the text is listable. */
  lemma {:induction false} DeleteListListable(text: string)
    ensures forall k :: 0 <= k < |DeleteList(text)| ==> Listable(DeleteList(text)[k])
  {
    var pieces := Split(text, ',');
    var trimmed := Map(pieces, Trim);
    SplitPiecesFree(text, ',');
    FilterMembers(trimmed, NonEmpty);
    forall k | 0 <= k < |DeleteList(text)|
      ensures Listable(DeleteList(text)[k])
    {
      var x := DeleteList(text)[k];
      assert x in trimmed;
      var i :| 0 <= i < |trimmed| && trimmed[i] == x;
      TrimSpec(pieces[i]);
      TrimFree(pieces[i], ',');
    }
  }

  /** Listable names joined with `, ` are read back as the same names. */
  lemma {:induction false} ReadJoined(xs: seq<string>)
    requires forall k :: 0 <= k < |xs| ==> Listable(xs[k])
    ensures DeleteList(Join(xs, ", ")) == xs
  {
    ReadJoinedAfter([], xs);
    assert [] + Join(xs, ", ") == Join(xs, ", ");
  }

  /** A listable name after the separator's space trims to itself. */
  lemma {:induction false} TrimAfterSpace(p: string, x: string)
    requires p == [] || p == " "
    requires Listable(x)
    ensures Trim(p + x) == x && ',' !in p + x
  {
    if p == [] {
      assert p + x == x;
      TrimOfTrimmed(x);
    } else {
      TrimAfterOneSpace(x);
      assert p == [' '];
    }
  }

  lemma {:induction false} TrimAfterOneSpace(x: string)
    requires Listable(x)
    ensures Trim([' '] + x) == x && ',' !in [' '] + x
  {
    TrimOfTrimmed(x);
    assert IsSpace(' ');
    TrimSkipsLeadingSpace(' ', x);
  }

  /** A piece that reads as `x`, then a comma, then the rest. */
  lemma {:induction false} ReadPiece(head: string, x: string, rest: string)
    requires ',' !in head && Trim(head) == x && x != []
    ensures DeleteList(head + [','] + rest) == [x] + DeleteList(rest)
  {
    SplitAfterPiece(head, ',', rest);
    MapCons(head, Split(rest, ','), Trim);
    FilterCons(x, Map(Split(rest, ','), Trim), NonEmpty);
  }

  /** A last piece that reads as `x`, or as nothing when `x` is empty. */
  lemma {:induction false} ReadLastPiece(head: string, x: string)
    requires ',' !in head && Trim(head) == x
    ensures DeleteList(head) == if x == [] then [] else [x]
  {
    SplitFree(head, ',');
    assert Map([head], Trim) == [x];
    var e: seq<string> := [];
    FilterCons(x, e, NonEmpty);
  }

  lemma {:induction false} JoinComma(xs: seq<string>, p: string)
    requires |xs| > 1
    ensures p + Join(xs, ", ") == (p + xs[0]) + [','] + (" " + Join(xs[1..], ", "))
  {
  }

  lemma {:induction false} BlankPrefix(p: string)
    requires p == [] || p == " "
    ensures Trim(p) == [] && ',' !in p
  {
    assert IsSpace(' ');
  }

  lemma {:induction false} TailListable(xs: seq<string>)
    requires xs != [] && forall k :: 0 <= k < |xs| ==> Listable(xs[k])
    ensures forall k :: 0 <= k < |xs[1..]| ==> Listable(xs[1..][k])
  {
    forall k | 0 <= k < |xs[1..]| ensures Listable(xs[1..][k]) {
      assert xs[1..][k] == xs[k + 1];
    }
  }

  lemma {:induction false} ReadJoinedAfter(p: string, xs: seq<string>)
    requires p == [] || p == " "
    requires forall k :: 0 <= k < |xs| ==> Listable(xs[k])
    ensures DeleteList(p + Join(xs, ", ")) == xs
    decreases |xs|
  {
    if xs == [] {
      ReadNone(p);
    } else if |xs| == 1 {
      ReadOne(p, xs[0]);
      assert xs == [xs[0]];
    } else {
      TailListable(xs);
      ReadJoinedAfter(" ", xs[1..]);
      ReadFirst(p, xs);
    }
  }

  /** A blank prefix alone reads as no names. */
  lemma {:induction false} ReadNone(p: string)
    requires p == [] || p == " "
    ensures DeleteList(p + Join([], ", ")) == []
  {
    BlankPrefix(p);
    assert p + Join([], ", ") == p;
    ReadLastPiece(p, []);
  }

  /** A blank prefix and one name read as that name. */
  lemma {:induction false} ReadOne(p: string, x: string)
    requires p == [] || p == " "
    requires Listable(x)
    ensures DeleteList(p + Join([x], ", ")) == [x]
  {
    TrimAfterSpace(p, x);
    assert Join([x], ", ") == x;
    ReadLastPiece(p + x, x);
  }

  /** The first name of several is read, then the rest after its separator. */
  lemma {:induction false} ReadFirst(p: string, xs: seq<string>)
    requires p == [] || p == " "
    requires |xs| > 1 && Listable(xs[0])
    requires DeleteList(" " + Join(xs[1..], ", ")) == xs[1..]
    ensures DeleteList(p + Join(xs, ", ")) == xs
  {
    var head := p + xs[0];
    var rest := " " + Join(xs[1..], ", ");
    TrimAfterSpace(p, xs[0]);
    JoinComma(xs, p);
    assert DeleteList(p + Join(xs, ", ")) == DeleteList(head + [','] + rest);
    ReadPiece(head, xs[0], rest);
    HeadTail(xs);
  }

  /** Writing the list back as `a, b, c` and reading it again gives the same list. */
  lemma DeleteListRoundTrip(text: string)
    ensures DeleteList(Join(DeleteList(text), ", ")) == DeleteList(text)
  {
    DeleteListListable(text);
    ReadJoined(DeleteList(text));
  }

  /** The text after a click on a column chip: the name removed everywhere when listed, else appended. */
  function ClickedText(text: string, column: string): string {
    Join(Toggle(DeleteList(text), column), ", ")
  }

  /** A click on a listable name toggles its membership and keeps the other names in order. */
  lemma ClickToggles(text: string, column: string)
    requires Listable(column)
    ensures DeleteList(ClickedText(text, column)) == Toggle(DeleteList(text), column)
    ensures column in DeleteList(text) ==> column !in DeleteList(ClickedText(text, column))
    ensures column !in DeleteList(text) ==> DeleteList(ClickedText(text, column)) == DeleteList(text) + [column]
  {
    var l := DeleteList(text);
    DeleteListListable(text);
    var t := Toggle(l, column);
    forall k | 0 <= k < |t|
      ensures Listable(t[k])
    {
      if column in l {
        assert t[k] in l;
      } else if k < |l| {
        assert t[k] == l[k];
      }
    }
    ReadJoined(t);
  }

  /** Two clicks on the same listable name leave the same names listed; when it was not listed, the
      same list. */
  lemma ClickTwice(text: string, column: string)
    requires Listable(column)
    ensures forall y :: y in DeleteList(ClickedText(ClickedText(text, column), column)) <==> y in DeleteList(text)
    ensures column !in DeleteList(text) ==> DeleteList(ClickedText(ClickedText(text, column), column)) == DeleteList(text)
  {
    ClickToggles(text, column);
    ClickToggles(ClickedText(text, column), column);
    ToggleTwice(DeleteList(text), column);
  }

  /** A click on a column chip rewrites the store's text and nothing else. */
  method ColumnClick(store: Store, column: string)
    modifies store
    ensures store.Snapshot() == old(store.Snapshot()).(columnsToDeleteText := ClickedText(old(store.columnsToDeleteText), column))
    ensures store.Saved()
  {
    var current := DeleteList(store.columnsToDeleteText);
    var updated;
    if column in current {
      updated := RemoveAll(current, column);
    } else {
      updated := current + [column];
    }
    store.SetColumnsToDeleteText(Join(updated, ", "));
  }

  /** The columns shown: the page's columns without the listed ones. */
  function DisplayColumns(actual: seq<string>, deleteList: seq<string>): seq<string> {
    Filter(actual, (c: string) => c !in deleteList)
  }

  /** A column is shown exactly when it is one of the page's columns and is not listed; the shown
      columns keep the page's order, are distinct when the page's are, and the "remaining" count is the
      columns minus those listed. */
  lemma {:induction false} DisplayColumnsSpec(actual: seq<string>, deleteList: seq<string>)
    ensures forall c :: c in DisplayColumns(actual, deleteList) <==> c in actual && c !in deleteList
    ensures IsSubsequence(DisplayColumns(actual, deleteList), actual)
    ensures Distinct(actual) ==> Distinct(DisplayColumns(actual, deleteList))
    ensures |DisplayColumns(actual, deleteList)| == |actual| - CountIn(actual, deleteList)
  {
    FilterMembers(actual, (c: string) => c !in deleteList);
    FilterSubsequence(actual, (c: string) => c !in deleteList);
    if Distinct(actual) {
      FilterDistinct(actual, (c: string) => c !in deleteList);
    }
    if actual != [] {
      DisplayColumnsSpec(actual[1..], deleteList);
    }
  }

  // ----------------------------------------------------------- next step

  /** The request to drop columns from the stored dataset. */
  datatype RemoveRequest = RemoveRequest(campaignId: string, columns: seq<string>, datasetId: string)

  /** What the step hands on: the list and the text as it was before the reset. */
  datatype NextArgs = NextArgs(columnsToDelete: seq<string>, columnsToDeleteText: string)

  /** `id` is a non-empty string. */
  predicate Present(id: Option<string>) {
    id.Some? && id.value != []
  }

  /** The "next" action.  With listed columns and both ids, the removal is requested; if the request
      (or the refetch after it) fails, nothing else happens.  Otherwise the text is cleared and the step
      moves on with the list and the text it was read from.  `requestFails` is the server's answer. */
  method HandleNext(store: Store, requestFails: bool) returns (request: Option<RemoveRequest>, next: Option<NextArgs>)
    modifies store
    ensures var list := DeleteList(old(store.columnsToDeleteText));
      request == (if list != [] && Present(old(store.createdCampaignId)) && Present(old(store.createdDatasetId))
                  then Some(RemoveRequest(old(store.createdCampaignId).value, list, old(store.createdDatasetId).value))
                  else None)
    ensures request.Some? && requestFails ==>
              next.None? && store.Snapshot() == old(store.Snapshot()) && store.stored == old(store.stored)
    ensures !(request.Some? && requestFails) ==>
              && next == Some(NextArgs(DeleteList(old(store.columnsToDeleteText)), old(store.columnsToDeleteText)))
              && store.Snapshot() == old(store.Snapshot()).(columnsToDeleteText := "")
              && store.Saved()
  {
    var text := store.columnsToDeleteText;
    var list := DeleteList(text);
    request := None;
    if |list| > 0 && Present(store.createdCampaignId) && Present(store.createdDatasetId) {
      request := Some(RemoveRequest(store.createdCampaignId.value, list, store.createdDatasetId.value));
      if requestFails {
        return request, None;
      }
    }
    store.SetColumnsToDeleteText("");
    next := Some(NextArgs(list, text));
  }
}
