/** The storages page: search over the storages, the fallback to the full
    list, and pagination by nine cards. */
module StoragesPage {
  import opened Values
  import opened Text
  import opened Domain
  import opened ListViews

  function CategoryName(st: Storage): Option<string>
  {
    if st.category.Some? then st.category.value.name else None
  }

  function ResponsibleName(st: Storage): Option<string>
  {
    if st.responsible.Some? then st.responsible.value.name else None
  }

  /** A storage matches a term when its identifier, its category's name or
      its responsible's name contains the term, ignoring case. */
  predicate StorageMatches(term: string, st: Storage)
  {
    FieldMatches(st.identifier, term) || FieldMatches(CategoryName(st), term) || FieldMatches(ResponsibleName(st), term)
  }

  /** The search result for a non-blank term, in list order. */
  function MatchingStorages(all: seq<Storage>, term: string): (r: seq<Storage>)
    ensures forall st :: st in r <==> st in all && StorageMatches(term, st)
    ensures |r| <= |all|
  {
    Filter(all, st => StorageMatches(term, st))
  }

  /** The search ignores the case of the term. */
  lemma SearchIgnoresCase(all: seq<Storage>, term: string)
    ensures MatchingStorages(all, Lower(term)) == MatchingStorages(all, term)
  {
    forall st: Storage
      ensures StorageMatches(Lower(term), st) == StorageMatches(term, st)
    {
      FieldMatchesIgnoresCase(st.identifier, term);
      FieldMatchesIgnoresCase(CategoryName(st), term);
      FieldMatchesIgnoresCase(ResponsibleName(st), term);
    }
    FilterSameTest(all, st => StorageMatches(Lower(term), st), st => StorageMatches(term, st));
  }

  /** The page state is consistent: the search result is no longer than the
      full list and the current page is a page of what is listed (page 1
      when nothing is listed). */
  predicate ViewInvariant(all: seq<Storage>, filtered: seq<Storage>, page: nat)
  {
    |filtered| <= |all| && (forall st :: st in filtered ==> st in all) && 1 <= page && (page == 1 || page <= TotalPages(|Display(filtered, all)|))
  }

  lemma TotalPagesMonotone(m: nat, n: nat)
    requires m <= n
    ensures TotalPages(m) <= TotalPages(n)
  {
  }

  /** Under the invariant the current page is never empty while something
      is listed. */
  lemma CurrentPageNotEmpty(all: seq<Storage>, filtered: seq<Storage>, page: nat)
    requires ViewInvariant(all, filtered, page)
    ensures |Display(filtered, all)| > 0 ==> |PageOf(Display(filtered, all), page)| > 0
  {
    PagesInRange(Display(filtered, all), page);
  }

  /** The page's own handlers keep the invariant, but a reload of the list
      does not restore it: after the only storage of page 2 is deleted the
      page stays 2, past the single page left, and shows nothing while
      storages remain and the page controls are hidden. */
  lemma ShrinkingListLeavesEmptyPage(remaining: seq<Storage>, deleted: Storage)
    requires |remaining| == PageSize
    ensures ViewInvariant(remaining + [deleted], [], 2)
    ensures !ViewInvariant(remaining, [], 2)
    ensures |Display([], remaining)| > 0 && PageOf(Display([], remaining), 2) == []
    ensures !ShowPagination(|Display([], remaining)|)
  {
    assert TotalPages(|remaining + [deleted]|) == 2;
    assert TotalPages(|remaining|) == 1;
  }

  /** Nor does a reload refresh the search result: a storage the search
      found and that is then deleted is still listed. */
  lemma DeletedMatchStaysListed(found: Storage, remaining: seq<Storage>)
    requires found !in remaining
    ensures ViewInvariant([found] + remaining, [found], 1)
    ensures !ViewInvariant(remaining, [found], 1)
    ensures found in PageOf(Display([found], remaining), 1) && found !in remaining
  {
    assert PageOf([found], 1) == [found];
  }

  /** The page's own state over the list the storages hook provides. */
  class StoragesView {
    var storages: seq<Storage>
    var filtered: seq<Storage>
    var currentPage: nat

    predicate Valid()
      reads this
    {
      ViewInvariant(storages, filtered, currentPage)
    }

    /** `displayStorages`. */
    function Displayed(): seq<Storage>
      reads this
    {
      Display(filtered, storages)
    }

    /** `paginatedStorages`. */
    function Visible(): (r: seq<Storage>)
      reads this
      requires Valid()
      ensures |r| <= PageSize
      ensures forall st :: st in r ==> st in storages
      ensures |Displayed()| > 0 ==> |r| > 0
    {
      CurrentPageNotEmpty(storages, filtered, currentPage);
      PageOf(Displayed(), currentPage)
    }

    constructor (storages: seq<Storage>)
      ensures this.storages == storages && filtered == [] && currentPage == 1
      ensures Valid()
    {
      this.storages := storages;
      filtered := [];
      currentPage := 1;
    }

    /** `handleSearch`. A blank term clears the search and keeps the page;
        any other term filters and goes back to page 1. */
    method HandleSearch(term: string)
      requires Valid()
      modifies this
      ensures Valid() && storages == old(storages)
      ensures IsBlank(term) ==> filtered == [] && currentPage == old(currentPage)
      ensures !IsBlank(term) ==> filtered == MatchingStorages(storages, term) && currentPage == 1
    {
      if IsBlank(term) {
        TotalPagesMonotone(|Displayed()|, |storages|);
        filtered := [];
        return;
      }
      filtered := MatchingStorages(storages, term);
      currentPage := 1;
    }

    /** The hook's list replaced after one of the page's storage actions;
        the search result and the page are left as they were, so the
        invariant may no longer hold (see `ShrinkingListLeavesEmptyPage`
        and `DeletedMatchStaysListed`). */
    method Reload(list: seq<Storage>)
      modifies this
      ensures storages == list && filtered == old(filtered) && currentPage == old(currentPage)
    {
      storages := list;
    }

    /** `handlePageChange`: only pages that exist are accepted. */
    method HandlePageChange(page: int)
      requires Valid()
      modifies this
      ensures Valid() && storages == old(storages) && filtered == old(filtered)
      ensures 1 <= page <= TotalPages(|Displayed()|) ==> currentPage == page
      ensures !(1 <= page <= TotalPages(|Displayed()|)) ==> currentPage == old(currentPage)
    {
      if page >= 1 && page <= TotalPages(|Displayed()|) {
        currentPage := page;
      }
    }
  }
}
