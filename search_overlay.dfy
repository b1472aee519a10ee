/** The search overlay of the dashboard: the query box, the quick filters
    and the list of recent searches. */
module SearchOverlay {
  import opened JsText

  const InitialRecentSearches: seq<string> := ["1947 coins", "British India", "Silver rupee", "Special coins"]
  const QuickFilters: seq<string> := ["Special Coins", "Recent Additions", "High Value", "British India", "Silver Coins"]
  const MaxRecent: nat := 4

  /** Whether `query.trim()` is truthy, the overlay's test for a query worth
      running. */
  predicate Accepted(query: string)
  {
    Trim(query) != ""
  }

  predicate Distinct(s: seq<string>)
  {
    forall i, j :: 0 <= i < j < |s| ==> s[i] != s[j]
  }

  /** The recent list after a search: an accepted query that is not listed
      yet goes in front of the first three entries; otherwise the list stays. */
  function NextRecent(recent: seq<string>, query: string): (r: seq<string>)
    ensures !Accepted(query) || query in recent ==> r == recent
    ensures Accepted(query) && query !in recent ==> |r| >= 1 && r[0] == query && r[1..] == recent[..if |recent| < 3 then |recent| else 3]
    ensures |r| <= MaxRecent || r == recent
  {
    if Accepted(query) && query !in recent then
      [query] + recent[..if |recent| < 3 then |recent| else 3]
    else recent
  }

  /** A query made only of whitespace never reaches the list. */
  lemma WhitespaceQueryIgnored(recent: seq<string>, query: string)
    requires AllSpace(query)
    ensures NextRecent(recent, query) == recent
  {
    TrimEmptyIffAllSpace(query);
  }

  /** The list is bounded and free of duplicates, and a search keeps it so. */
  lemma NextRecentKeepsInvariant(recent: seq<string>, query: string)
    requires |recent| <= MaxRecent && Distinct(recent)
    ensures var r := NextRecent(recent, query); |r| <= MaxRecent && Distinct(r)
  {
    var r := NextRecent(recent, query);
    if r != recent {
      var kept := recent[..if |recent| < 3 then |recent| else 3];
      assert query !in kept;
      forall i, j | 0 <= i < j < |r| ensures r[i] != r[j] {
        if i == 0 {
          assert r[j] == kept[j - 1];
        } else {
          assert r[i] == recent[i - 1] && r[j] == recent[j - 1];
        }
      }
    }
  }

  /** The starting list already meets the invariant. */
  lemma InitialListDistinct()
    ensures |InitialRecentSearches| <= MaxRecent && Distinct(InitialRecentSearches)
  {
  }

  /** A query already in the list changes nothing: there is no move to the
      front, so re-running an entry leaves the order as it was. */
  lemma RerunKeepsOrder(recent: seq<string>, k: nat)
    requires k < |recent|
    ensures NextRecent(recent, recent[k]) == recent
  {
  }

  /** The overlay's state: the recent list, the queries handed to the
      parent's `onSearch` so far, and two values the parent owns and passes
      in, its query and its visibility flag. The dashboard's `onSearch` sets
      its query to the searched text and its `onClose` hides the overlay, so
      both are updated here. */
  class Overlay {
    var recentSearches: seq<string>
    var searchQuery: string
    var isVisible: bool
    var searched: seq<string>

    ghost predicate Valid()
      reads this
    {
      |recentSearches| <= MaxRecent && Distinct(recentSearches)
    }

    /** The overlay as mounted, with the parent's query and visibility;
        the dashboard mounts it with an empty query, hidden. */
    constructor (searchQuery: string, isVisible: bool)
      ensures Valid()
      ensures recentSearches == InitialRecentSearches && this.searchQuery == searchQuery
      ensures this.isVisible == isVisible && searched == []
    {
      recentSearches := InitialRecentSearches;
      this.searchQuery := searchQuery;
      this.isVisible := isVisible;
      searched := [];
      InitialListDistinct();
    }

    /** `handleSearch`: an accepted query goes to `onSearch` as typed, not
        trimmed, which makes it the parent's query; it updates the recent
        list and closes the overlay. Any other query changes nothing. */
    method HandleSearch(query: string)
      requires Valid()
      modifies this
      ensures Valid()
      ensures recentSearches == NextRecent(old(recentSearches), query)
      ensures Accepted(query) ==> searched == old(searched) + [query] && searchQuery == query && !isVisible
      ensures !Accepted(query) ==>
        searched == old(searched) && searchQuery == old(searchQuery) && isVisible == old(isVisible)
    {
      NextRecentKeepsInvariant(recentSearches, query);
      if Trim(query) != "" {
        searched := searched + [query];
        searchQuery := query;
        if query !in recentSearches {
          recentSearches := [query] + recentSearches[..if |recentSearches| < 3 then |recentSearches| else 3];
        }
        isVisible := false;
      }
    }

    /** Typing in the search box sets the parent's query and nothing else.
        Like the controls below, the box exists only while the overlay is
        shown: a hidden overlay renders nothing. */
    method Type(value: string)
      requires Valid() && isVisible
      modifies this
      ensures Valid()
      ensures searchQuery == value
      ensures recentSearches == old(recentSearches) && searched == old(searched) && isVisible == old(isVisible)
    {
      searchQuery := value;
    }

    /** Submitting the form searches for the current query. */
    method Submit()
      requires Valid() && isVisible
      modifies this
      ensures Valid()
      ensures recentSearches == NextRecent(old(recentSearches), old(searchQuery))
      ensures Accepted(old(searchQuery)) ==> searched == old(searched) + [old(searchQuery)] && !isVisible
      ensures !Accepted(old(searchQuery)) ==> searched == old(searched) && isVisible == old(isVisible)
      ensures searchQuery == old(searchQuery)
    {
      HandleSearch(searchQuery);
    }

    /** A quick-filter button searches for its label. */
    method PressQuickFilter(k: nat)
      requires Valid() && isVisible && k < |QuickFilters|
      modifies this
      ensures Valid()
      ensures recentSearches == NextRecent(old(recentSearches), QuickFilters[k])
      ensures searched == old(searched) + [QuickFilters[k]] && searchQuery == QuickFilters[k] && !isVisible
    {
      assert QuickFilters[k][0] != ' ' && !IsSpace(QuickFilters[k][0]);
      TrimEmptyIffAllSpace(QuickFilters[k]);
      HandleSearch(QuickFilters[k]);
    }

    /** A recent entry searches for itself and so leaves the list as it is. */
    method PressRecent(k: nat)
      requires Valid() && isVisible && k < |recentSearches|
      modifies this
      ensures Valid()
      ensures recentSearches == old(recentSearches)
      ensures Accepted(old(recentSearches)[k]) ==>
        searched == old(searched) + [old(recentSearches)[k]] && searchQuery == old(recentSearches)[k] && !isVisible
    {
      HandleSearch(recentSearches[k]);
    }

    /** `clearSearch`: empties the query, runs the empty search and closes. */
    method ClearSearch()
      requires Valid() && isVisible
      modifies this
      ensures Valid()
      ensures searchQuery == "" && searched == old(searched) + [""] && !isVisible
      ensures recentSearches == old(recentSearches)
    {
      searchQuery := "";
      searched := searched + [""];
      isVisible := false;
    }
  }
}
