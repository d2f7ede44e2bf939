/**
 * The campaigns list: a search box filters the campaigns by name, the
 * result is shown ten to a page, and a pager offers previous/next, the
 * page numbers around the current page with ellipses for the hidden ones,
 * and a "showing a to b of n" line.
 */
module CampaignsList {
  import opened JsText
  import opened Lists
  import opened Wrappers
  import opened RawDownload

  datatype Campaign = Campaign(id: string, name: string)

  const ItemsPerPage := 10
  const MaxVisiblePages := 5

  /** The campaigns whose lower-cased name contains `needle`, in their order. */
  function Matching(cs: seq<Campaign>, needle: string): seq<Campaign> {
    if cs == [] then []
    else (if Includes(ToLower(cs[0].name), needle) then [cs[0]] else []) + Matching(cs[1..], needle)
  }

  /** A blank query keeps every campaign; otherwise the lower-cased, untrimmed query is matched. */
  function Search(cs: seq<Campaign>, query: string): seq<Campaign> {
    if Trim(query) == [] then cs else Matching(cs, ToLower(query))
  }

  lemma {:induction false} MatchingSpec(cs: seq<Campaign>, needle: string)
    ensures forall c :: c in Matching(cs, needle) <==> c in cs && Includes(ToLower(c.name), needle)
    ensures IsSubsequence(Matching(cs, needle), cs)
  {
    if cs != [] {
      MatchingSpec(cs[1..], needle);
      assert forall c :: c in cs <==> c == cs[0] || c in cs[1..];
      var r := Matching(cs, needle);
      if Includes(ToLower(cs[0].name), needle) {
        assert r[1..] == Matching(cs[1..], needle);
      } else {
        assert r == Matching(cs[1..], needle);
      }
    }
  }

  /** A blank query shows everything; any other query shows, in the original order, exactly the
      campaigns whose name contains it when both are lower-cased. */
  lemma SearchSpec(cs: seq<Campaign>, query: string)
    ensures Trim(query) == [] ==> Search(cs, query) == cs
    ensures Trim(query) != [] ==>
              (forall c :: c in Search(cs, query) <==> c in cs && Includes(ToLower(c.name), ToLower(query)))
    ensures IsSubsequence(Search(cs, query), cs)
  {
    MatchingSpec(cs, ToLower(query));
    if Trim(query) == [] {
      SubsequenceRefl(cs);
    }
  }

  lemma CaseCharFacts(c: char)
    ensures LowerChar(UpperChar(c)) == LowerChar(c)
    ensures IsSpace(UpperChar(c)) <==> IsSpace(c)
  {
  }

  lemma {:induction false} LowerOfUpper(q: string)
    ensures ToLower(ToUpper(q)) == ToLower(q)
  {
    var up := ToUpper(q);
    forall k | 0 <= k < |q| ensures ToLower(up)[k] == ToLower(q)[k] {
      CaseCharFacts(q[k]);
    }
  }

  lemma {:induction false} BlankOfUpper(q: string)
    ensures Trim(ToUpper(q)) == [] <==> Trim(q) == []
  {
    var up := ToUpper(q);
    TrimEmptyIff(up);
    TrimEmptyIff(q);
    forall k | 0 <= k < |q| ensures IsSpace(up[k]) <==> IsSpace(q[k]) {
      CaseCharFacts(q[k]);
    }
  }

  /** The search ignores the case of the query's letters. */
  lemma SearchIgnoresCase(cs: seq<Campaign>, query: string)
    ensures Search(cs, ToUpper(query)) == Search(cs, query)
  {
    LowerOfUpper(query);
    BlankOfUpper(query);
  }

  /** `Math.ceil(n / 10)`: the fewest pages of ten that hold `n` items. */
  function TotalPages(n: nat): (r: nat)
    ensures r * ItemsPerPage >= n
    ensures r > 0 ==> (r - 1) * ItemsPerPage < n
  {
    (n + ItemsPerPage - 1) / ItemsPerPage
  }

  /** `s.slice(start, end)`: negative positions count from the end, positions are clamped. */
  function JsSlice<T>(s: seq<T>, start: int, end: int): (r: seq<T>)
    ensures |r| <= |s|
  {
    var from := if start < 0 then (if |s| + start < 0 then 0 else |s| + start) else if start > |s| then |s| else start;
    var to := if end < 0 then (if |s| + end < 0 then 0 else |s| + end) else if end > |s| then |s| else end;
    if to <= from then [] else s[from..to]
  }

  /** The campaigns on page `p`. */
  function PageSlice<T>(s: seq<T>, p: int): seq<T> {
    JsSlice(s, (p - 1) * ItemsPerPage, (p - 1) * ItemsPerPage + ItemsPerPage)
  }

  /** Page `p` holds the items at indices `(p-1)*10 .. p*10`, as far as they exist. */
  lemma PageSliceSpec<T>(s: seq<T>, p: int)
    requires p >= 1
    ensures var lo := (p - 1) * ItemsPerPage;
      && |PageSlice(s, p)| == (if lo >= |s| then 0 else Min(|s| - lo, ItemsPerPage))
      && forall k :: 0 <= k < |PageSlice(s, p)| ==> PageSlice(s, p)[k] == s[lo + k]
  {
  }

  /** The pages split the items: item `i` is item `i % 10` of page `i / 10 + 1`, a page that exists. */
  lemma PagesCoverItems<T>(s: seq<T>, i: nat)
    requires i < |s|
    ensures 1 <= i / ItemsPerPage + 1 <= TotalPages(|s|)
    ensures i % ItemsPerPage < |PageSlice(s, i / ItemsPerPage + 1)|
    ensures PageSlice(s, i / ItemsPerPage + 1)[i % ItemsPerPage] == s[i]
  {
    PageSliceSpec(s, i / ItemsPerPage + 1);
  }

  function Min(a: int, b: int): int {
    if a < b then a else b
  }

  /** The "Showing a to b" numbers of page `p` of `n` items. */
  function ShowingRange(n: nat, p: int): (int, int) {
    ((p - 1) * ItemsPerPage + 1, Min(p * ItemsPerPage, n))
  }

  /** On an existing page the range is exactly the items the page shows, counted from one. */
  lemma ShowingRangeSpec<T>(s: seq<T>, p: int)
    requires 1 <= p <= TotalPages(|s|)
    ensures var (a, b) := ShowingRange(|s|, p);
      && 1 <= a <= b <= |s|
      && PageSlice(s, p) == s[a - 1..b]
  {
    PageSliceSpec(s, p);
  }

  /** An entry of the pager. */
  datatype PageItem = PageNo(n: int) | Ellipsis

  /** Page numbers `a` to `b`, both included. */
  function Range(a: int, b: int): (r: seq<PageItem>)
    ensures |r| == (if b < a then 0 else b - a + 1)
    ensures forall k :: 0 <= k < |r| ==> r[k] == PageNo(a + k)
  {
    seq(if b < a then 0 else b - a + 1, k => PageNo(a + k))
  }

  /** The pager's entries: every page when there are at most five; otherwise the first and last page
      with the first four, the last four, or the current page and its neighbours. */
  function PageNumbers(total: nat, current: int): seq<PageItem> {
    if total <= MaxVisiblePages then Range(1, total)
    else if current <= 3 then Range(1, 4) + [Ellipsis, PageNo(total)]
    else if current >= total - 2 then [PageNo(1), Ellipsis] + Range(total - 3, total)
    else [PageNo(1), Ellipsis] + Range(current - 1, current + 1) + [Ellipsis, PageNo(total)]
  }

  /** `getPageNumbers`, building the entries with loops. */
  method GetPageNumbers(total: nat, current: int) returns (pages: seq<PageItem>)
    ensures pages == PageNumbers(total, current)
  {
    pages := [];
    if total <= MaxVisiblePages {
      for i := 1 to total + 1
        invariant pages == Range(1, i - 1)
      {
        pages := pages + [PageNo(i)];
      }
    } else if current <= 3 {
      for i := 1 to 5
        invariant pages == Range(1, i - 1)
      {
        pages := pages + [PageNo(i)];
      }
      pages := pages + [Ellipsis];
      pages := pages + [PageNo(total)];
    } else if current >= total - 2 {
      pages := pages + [PageNo(1)];
      pages := pages + [Ellipsis];
      for i := total - 3 to total + 1
        invariant pages == [PageNo(1), Ellipsis] + Range(total - 3, i - 1)
      {
        pages := pages + [PageNo(i)];
      }
    } else {
      pages := pages + [PageNo(1)];
      pages := pages + [Ellipsis];
      for i := current - 1 to current + 2
        invariant pages == [PageNo(1), Ellipsis] + Range(current - 1, i - 1)
      {
        pages := pages + [PageNo(i)];
      }
      pages := pages + [Ellipsis];
      pages := pages + [PageNo(total)];
    }
  }

  /** Neighbouring page numbers are consecutive, and an ellipsis stands between two page numbers with
      at least one page hidden between them. */
  predicate WellSpaced(pages: seq<PageItem>) {
    && (forall i :: 0 <= i < |pages| - 1 && pages[i].PageNo? && pages[i + 1].PageNo? ==>
          pages[i + 1].n == pages[i].n + 1)
    && (forall i :: 0 <= i < |pages| && pages[i].Ellipsis? ==>
          0 < i < |pages| - 1 && pages[i - 1].PageNo? && pages[i + 1].PageNo? && pages[i + 1].n >= pages[i - 1].n + 2)
  }

  /** Up to five pages are all listed, in order. */
  lemma FewPagesAllShown(total: nat, current: int)
    requires total <= MaxVisiblePages
    ensures |PageNumbers(total, current)| == total
    ensures forall k :: 0 <= k < total ==> PageNumbers(total, current)[k] == PageNo(k + 1)
  {
  }

  /** More than five pages give six or seven entries from page one to the last page, well spaced,
      with every number a real page. */
  lemma ManyPagesShape(total: nat, current: int)
    requires total > MaxVisiblePages
    ensures var pages := PageNumbers(total, current);
      && 6 <= |pages| <= 7
      && pages[0] == PageNo(1) && pages[|pages| - 1] == PageNo(total)
      && Ellipsis in pages
      && WellSpaced(pages)
  {
    PagesListed(total, current);
    if current <= 3 {
      SpacedNearStart(total);
    } else if current >= total - 2 {
      SpacedNearEnd(total);
    } else {
      SpacedInMiddle(total, current);
    }
  }

  /** The entries of a long list, written out for each position of the current page. */
  lemma PagesListed(total: nat, current: int)
    requires total > MaxVisiblePages
    ensures current <= 3 ==> PageNumbers(total, current) == [PageNo(1), PageNo(2), PageNo(3), PageNo(4), Ellipsis, PageNo(total)]
    ensures 3 < current && current >= total - 2 ==>
      PageNumbers(total, current) == [PageNo(1), Ellipsis, PageNo(total - 3), PageNo(total - 2), PageNo(total - 1), PageNo(total)]
    ensures 3 < current < total - 2 ==>
      PageNumbers(total, current) == [PageNo(1), Ellipsis, PageNo(current - 1), PageNo(current), PageNo(current + 1), Ellipsis, PageNo(total)]
  {
    var pages := PageNumbers(total, current);
    if current <= 3 {
      assert pages == [PageNo(1), PageNo(2), PageNo(3), PageNo(4), Ellipsis, PageNo(total)];
    } else if current >= total - 2 {
      assert pages == [PageNo(1), Ellipsis, PageNo(total - 3), PageNo(total - 2), PageNo(total - 1), PageNo(total)];
    } else {
      assert pages == [PageNo(1), Ellipsis, PageNo(current - 1), PageNo(current), PageNo(current + 1), Ellipsis, PageNo(total)];
    }
  }

  lemma SpacedNearStart(total: nat)
    requires total > MaxVisiblePages
    ensures WellSpaced([PageNo(1), PageNo(2), PageNo(3), PageNo(4), Ellipsis, PageNo(total)])
  {
  }

  lemma SpacedNearEnd(total: nat)
    requires total > MaxVisiblePages
    ensures WellSpaced([PageNo(1), Ellipsis, PageNo(total - 3), PageNo(total - 2), PageNo(total - 1), PageNo(total)])
  {
  }

  lemma SpacedInMiddle(total: nat, current: int)
    requires 3 < current < total - 2
    ensures WellSpaced([PageNo(1), Ellipsis, PageNo(current - 1), PageNo(current), PageNo(current + 1), Ellipsis, PageNo(total)])
  {
  }

  /** Every listed number is a page that exists, and the numbers strictly increase. */
  lemma PageNumbersIncrease(total: nat, current: int)
    ensures var pages := PageNumbers(total, current);
      && (forall i :: 0 <= i < |pages| && pages[i].PageNo? ==> 1 <= pages[i].n <= total)
      && (forall i, j :: 0 <= i < j < |pages| && pages[i].PageNo? && pages[j].PageNo? ==> pages[i].n < pages[j].n)
  {
    if total > MaxVisiblePages {
      PagesListed(total, current);
    }
  }

  /** An existing current page is always listed. */
  lemma CurrentPageShown(total: nat, current: int)
    requires 1 <= current <= total
    ensures PageNo(current) in PageNumbers(total, current)
  {
    var pages := PageNumbers(total, current);
    if total <= MaxVisiblePages {
      assert pages[current - 1] == PageNo(current);
    } else if current <= 3 {
      assert pages[current - 1] == PageNo(current);
    } else if current >= total - 2 {
      assert pages[current - total + 5] == PageNo(current);
    } else {
      assert pages[3] == PageNo(current);
    }
  }

  /** The number of pages, counting an empty list as one page. */
  function MaxOne(n: nat): (r: nat)
    ensures r >= 1 && r >= n
  {
    if n == 0 then 1 else n
  }

  /** The list page: the campaigns, the query and the current page. */
  class Pager {
    var campaigns: seq<Campaign>
    var query: string
    var currentPage: int

    function Filtered(): seq<Campaign>
      reads this
    {
      Search(campaigns, query)
    }

    function Total(): nat
      reads this
    {
      TotalPages(|Filtered()|)
    }

    /** The current page is a real page, or page one when there are none. */
    predicate Valid()
      reads this
    {
      1 <= currentPage <= MaxOne(Total())
    }

    /** The campaigns on the current page. */
    function Current(): seq<Campaign>
      reads this
    {
      PageSlice(Filtered(), currentPage)
    }

    constructor(cs: seq<Campaign>)
      ensures campaigns == cs && query == "" && currentPage == 1 && Valid()
    {
      campaigns := cs;
      query := "";
      currentPage := 1;
    }

    /** New campaigns or a new query; the page goes back to one when the query or the number of
        matching campaigns changed. */
    method Update(cs: seq<Campaign>, q: string)
      requires Valid()
      modifies this
      ensures campaigns == cs && query == q && Valid()
      ensures currentPage ==
                if q != old(query) || |Search(cs, q)| != |old(Filtered())| then 1 else old(currentPage)
    {
      var changed := q != query || |Search(cs, q)| != |Filtered()|;
      campaigns := cs;
      query := q;
      if changed {
        currentPage := 1;
      }
    }

    method SetQuery(q: string)
      requires Valid()
      modifies this
      ensures campaigns == old(campaigns) && query == q && Valid()
      ensures currentPage == if q != old(query) || |Search(campaigns, q)| != |old(Filtered())| then 1 else old(currentPage)
    {
      Update(campaigns, q);
    }

    method ClearSearch()
      requires Valid()
      modifies this
      ensures campaigns == old(campaigns) && query == "" && Valid()
      ensures Filtered() == campaigns
    {
      Update(campaigns, "");
      assert Trim("") == [];
    }

    /** "Previous" moves back one page, but never before page one. */
    method Previous()
      requires Valid()
      modifies this
      ensures campaigns == old(campaigns) && query == old(query) && Valid()
      ensures currentPage == if old(currentPage) > 1 then old(currentPage) - 1 else old(currentPage)
    {
      if currentPage > 1 {
        currentPage := currentPage - 1;
      }
    }

    /** "Next" moves on one page, but never past the last. */
    method Next()
      requires Valid()
      modifies this
      ensures campaigns == old(campaigns) && query == old(query) && Valid()
      ensures currentPage == if old(currentPage) < Total() then old(currentPage) + 1 else old(currentPage)
    {
      if currentPage < Total() {
        currentPage := currentPage + 1;
      }
    }

    /** A click on the pager's entry at `index`: a page number becomes the current page, an ellipsis
        is not a link. */
    method Select(index: nat)
      requires Valid() && index < |PageNumbers(Total(), currentPage)|
      modifies this
      ensures campaigns == old(campaigns) && query == old(query) && Valid()
      ensures var item := PageNumbers(old(Total()), old(currentPage))[index];
        currentPage == if item.PageNo? then item.n else old(currentPage)
    {
      var item := PageNumbers(Total(), currentPage)[index];
      if item.PageNo? {
        PageNumbersIncrease(Total(), currentPage);
        currentPage := item.n;
      }
    }
  }

  /** The download of a campaign's first dataset: nothing without a chosen campaign or content; the
      file is named after the dataset, else after the campaign. */
  method DownloadCampaignDataset(campaign: Option<Campaign>, content: Option<string>, decoded: Option<string>,
                                 datasetType: Option<string>, datasetName: Option<string>)
    returns (file: Option<RawFile>)
    ensures campaign.None? || content.None? || content.value == [] || decoded.None? ==> file.None?
    ensures campaign.Some? && content.Some? && content.value != [] && decoded.Some? ==>
              && file.Some?
              && file.value.fileName == WithExtension(NameOr(datasetName, campaign.value.name), KindOf(datasetType, datasetName))
              && file.value.mime == Mime(KindOf(datasetType, datasetName))
              && |file.value.bytes| == |decoded.value|
              && forall i :: 0 <= i < |decoded.value| ==> file.value.bytes[i] as int == (decoded.value[i] as int) % 256
  {
    if campaign.None? || content.None? {
      return None;
    }
    file := DownloadRaw(content.value, decoded, datasetType, datasetName, campaign.value.name);
  }
}
